/** What a stored detection run was made from: rows that were all stored at some time, analysed as they were read. */
module Detections {
  import opened Options
  import opened Boundaries
  import opened Records
  import opened Invariants
  import opened Requests
  import opened Calls
  import opened Transactions
  import opened Interleaving
  import opened Analyses
  import Hashing

  /** Everything one detection reads and is asked: `at` is the database when it reads its neighbours. */
  datatype Basis = Basis(at: Db, proposal: Proposal, parcel: Parcel, neighbours: seq<Parcel>, requested: real, tolerance: real, now: int)

  /** The rows were stored when read, the neighbours are all there were, and a tolerance of zero means the proposal's. */
  ghost predicate WasRead(lib: Library, db: Db, b: Basis) {
    && Sound(lib, b.at) && Follows(b.at, db) && ListsNeighbours(b.at, b.parcel, b.neighbours)
    && b.tolerance == (if b.requested == 0.0 then b.proposal.tolerance else b.requested)
    && SeenProposal(db, b.proposal) && SeenParcel(db, b.parcel) && b.parcel.id == b.proposal.parcelID && BoundarySound(lib, b.parcel)
    && forall n | n in b.neighbours :: SeenParcel(db, n)
  }

  ghost predicate Yields(lib: Library, b: Basis, proposalID: nat, detections: seq<Detection>, requestHash: string, inputHash: string) {
    && Parsed(lib, b.parcel.boundary).Some? && Parsed(lib, b.proposal.geometry).Some?
    && b.proposal.id == proposalID
    && Analysed(lib, b.proposal, b.parcel, b.neighbours, b.tolerance, b.now) == Ok(detections)
    && requestHash == HashOfRequest(lib, proposalID, b.tolerance)
    && inputHash == Hashing.InputHash(InputOf(lib, b.proposal, b.parcel, b.neighbours, b.tolerance))
  }

  ghost predicate PlanMade(lib: Library, db: Db, plan: Plan)
    requires plan.DetectPlan?
  {
    exists b :: WasRead(lib, db, b) && Yields(lib, b, plan.source.id, plan.detections, plan.requestHash, plan.inputHash)
  }

  ghost predicate ResultsStored(db: Db, run: DetectionRun) {
    forall c | c in run.resultIDs :: c in db.conflicts
  }

  function Results(db: Db, run: DetectionRun): (r: seq<Detection>)
    requires ResultsStored(db, run)
    ensures |r| == |run.resultIDs|
    ensures forall k | 0 <= k < |r| :: r[k] == db.conflicts[run.resultIDs[k]].detection
  {
    seq(|run.resultIDs|, k requires 0 <= k < |run.resultIDs| => db.conflicts[run.resultIDs[k]].detection)
  }

  ghost predicate MadeFrom(lib: Library, db: Db, run: DetectionRun, b: Basis) {
    ResultsStored(db, run) && WasRead(lib, db, b) && Yields(lib, b, run.proposalID, Results(db, run), run.requestHash, run.inputHash)
  }

  ghost predicate RunsMade(lib: Library, db: Db) {
    forall r | r in db.runs :: exists b :: MadeFrom(lib, db, db.runs[r], b)
  }

  /** What an unfinished detection knows beyond `CallSound`. */
  ghost predicate DetectionKnown(lib: Library, db: Db, p: Progress) {
    match p
    case ParcelOfProposalRead(proposal, parcel) => parcel.id == proposal.parcelID && BoundarySound(lib, parcel)
    case Ready(plan) => plan.DetectPlan? ==> PlanMade(lib, db, plan)
    case _ => true
  }

  // --- Stability -------------------------------------------------------------------------

  lemma WasReadStays(lib: Library, a: Db, b: Db, basis: Basis)
    requires Follows(a, b) && WasRead(lib, a, basis)
    ensures WasRead(lib, b, basis)
  {
    hide Follows, SeenParcel, SeenProposal, BoundarySound, Sound, ListsNeighbours;
    SeenStays(a, b);
    FollowsTransitively(basis.at, a, b);
  }

  lemma DetectionKnownStays(lib: Library, a: Db, b: Db, p: Progress)
    requires Follows(a, b) && DetectionKnown(lib, a, p)
    ensures DetectionKnown(lib, b, p)
  {
    hide Follows, WasRead, Yields, BoundarySound;
    if p.Ready? && p.plan.DetectPlan? {
      var basis :| WasRead(lib, a, basis) && Yields(lib, basis, p.plan.source.id, p.plan.detections, p.plan.requestHash, p.plan.inputHash);
      WasReadStays(lib, a, b, basis);
    }
  }

  lemma MadeFromStays(lib: Library, a: Db, b: Db, run: DetectionRun, basis: Basis)
    requires Follows(a, b) && MadeFrom(lib, a, run, basis)
    ensures MadeFrom(lib, b, run, basis)
  {
    hide WasRead, Yields;
    WasReadStays(lib, a, b, basis);
    ResultsFollow(a, b, run);
  }

  lemma ResultsFollow(a: Db, b: Db, run: DetectionRun)
    requires Follows(a, b) && ResultsStored(a, run)
    ensures ResultsStored(b, run) && Results(b, run) == Results(a, run)
  {
    assert forall k | 0 <= k < |run.resultIDs| :: run.resultIDs[k] in a.conflicts;
    ConflictsFollow(a, b);
  }

  lemma ConflictsFollow(a: Db, b: Db)
    requires Follows(a, b)
    ensures forall c | c in a.conflicts :: c in b.conflicts && b.conflicts[c].detection == a.conflicts[c].detection
    ensures forall r | r in a.runs :: r in b.runs && b.runs[r] == a.runs[r]
  {
  }

  // --- Steps -----------------------------------------------------------------------------------

  lemma ReadsKnowDetection(lib: Library, db: Db, actor: Actor, req: Request, p: Progress)
    requires Sound(lib, db) && Fits(lib, req, p) && CallSound(lib, db, Call(actor, req, p)) && DetectionKnown(lib, db, p) && !p.Ready?
    ensures DetectionKnown(lib, db, Advance(lib, db, actor, req, p).1)
  {
    hide Sound, Parsed, AreaOf, SeenProposal, SeenParcel, PlanMade, Analyse, RequestHashOf, Db.RunFor, Db.ConflictsByID, Updated, Start;
    match p
    case Started => StartNeverDetects(lib, db, actor, req); StartNeverAnalyses(lib, db, actor, req);
    case KeyUnused(proposal) => RowsAreSeen(lib, db);
    case ParcelOfProposalRead(proposal, parcel) => AnalysisMade(lib, db, req, proposal, parcel);
    case _ =>
  }

  lemma StartNeverAnalyses(lib: Library, db: Db, actor: Actor, req: Request)
    ensures !Start(lib, db, actor, req).ParcelOfProposalRead?
  {
    hide Parsed, AreaOf, Updated;
  }

  /** The neighbours an analysis reads are stored rows. */
  lemma {:induction false} NeighboursAreSeen(lib: Library, db: Db, system: string, exclude: nat)
    requires Sound(lib, db)
    ensures forall n | n in db.ActiveNeighbours(system, exclude) :: SeenParcel(db, n)
  {
    hide Sound, SeenParcel;
    RowsAreSeen(lib, db);
    NeighboursAreRows(db, system, exclude, db.next.parcel);
  }

  lemma AnalysisMade(lib: Library, db: Db, req: Request, proposal: Proposal, parcel: Parcel)
    requires Sound(lib, db) && Fits(lib, req, ParcelOfProposalRead(proposal, parcel)) && proposal.id == req.proposalID
    requires SeenProposal(db, proposal) && SeenParcel(db, parcel) && DetectionKnown(lib, db, ParcelOfProposalRead(proposal, parcel))
    ensures DetectionKnown(lib, db, Analyse(lib, db, req, proposal, parcel))
  {
    hide Sound, Parsed, AreaOf, SeenProposal, SeenParcel, Analysed, Hashing.InputHash, Hashing.RequestHash, InputOf, Db.ActiveNeighbours,
      BoundarySound, Follows, ListsNeighbours, KeysSound, RunsSound;
    var neighbours := db.ActiveNeighbours(parcel.coordinateSystem, parcel.id);
    var b := Basis(db, proposal, parcel, neighbours, req.tolerance, EffectiveTolerance(req.tolerance, proposal), req.now);
    FollowsItself(db);
    SoundRuns(lib, db);
    NeighboursAreExactly(db, parcel);
    NeighboursAreSeen(lib, db, parcel.coordinateSystem, parcel.id);
    var p := Analyse(lib, db, req, proposal, parcel);
    if p.Ready? {
      assert WasRead(lib, db, b);
      assert Yields(lib, b, p.plan.source.id, p.plan.detections, p.plan.requestHash, p.plan.inputHash);
    }
  }

  lemma OtherCommitsAddNoRun(db: Db, actor: Actor, req: Request, plan: Plan)
    requires !plan.DetectPlan? && Commit(db, actor, req, plan).Some?
    ensures Commit(db, actor, req, plan).value.runs == db.runs
  {
  }

  lemma DetectAddsTheRun(db: Db, actor: Actor, key: string, plan: Plan)
    requires plan.DetectPlan? && Detect(db, actor, key, plan).Some?
    ensures Detect(db, actor, key, plan).value.runs == db.runs[db.next.run := RunOf(db, actor, key, plan)]
  {
    ConflictsInserted(db, actor, plan.parcelID, plan.detections);
    hide AddConflicts;
  }

  lemma InsertedResults(db: Db, d: Db, actor: Actor, key: string, plan: Plan)
    requires plan.DetectPlan? && Inserted(d, db.next.conflict, plan.detections)
    ensures var run := RunOf(db, actor, key, plan); ResultsStored(d, run) && Results(d, run) == plan.detections
  {
    var run, items := RunOf(db, actor, key, plan), DetectedItems(db.next.conflict, plan.detections);
    forall k | 0 <= k < |items| ensures run.resultIDs[k] in d.conflicts && d.conflicts[run.resultIDs[k]].detection == plan.detections[k] {
      assert items[k] in items;
    }
  }

  lemma CommitKeepsRunsMade(lib: Library, db: Db, actor: Actor, req: Request, plan: Plan)
    requires plan.DetectPlan? ==> req.DetectConflicts?
    requires Sound(lib, db) && PlanSound(lib, db, actor, req, plan) && RunsMade(lib, db) && DetectionKnown(lib, db, Ready(plan))
    requires Commit(db, actor, req, plan).Some?
    ensures RunsMade(lib, Commit(db, actor, req, plan).value)
  {
    hide Sound, PlanSound, Follows, MadeFrom, Commit, WasRead, Yields;
    var d := Commit(db, actor, req, plan).value;
    CommitKeepsSound(lib, db, actor, req, plan);
    CommittedRuns(lib, db, actor, req, plan);
    forall r | r in d.runs ensures exists b :: MadeFrom(lib, d, d.runs[r], b) {
      if plan.DetectPlan? && r == db.next.run {
        NewRunMade(lib, db, actor, req, plan);
      } else {
        var b :| MadeFrom(lib, db, db.runs[r], b);
        MadeFromStays(lib, db, d, db.runs[r], b);
      }
    }
  }

  lemma CommittedRuns(lib: Library, db: Db, actor: Actor, req: Request, plan: Plan)
    requires plan.DetectPlan? ==> req.DetectConflicts?
    requires Commit(db, actor, req, plan).Some?
    ensures Commit(db, actor, req, plan).value.runs ==
      if plan.DetectPlan? then db.runs[db.next.run := RunOf(db, actor, req.key, plan)] else db.runs
  {
    if plan.DetectPlan? {
      DetectAddsTheRun(db, actor, req.key, plan);
    } else {
      OtherCommitsAddNoRun(db, actor, req, plan);
    }
  }

  lemma NewRunMade(lib: Library, db: Db, actor: Actor, req: Request, plan: Plan)
    requires Sound(lib, db) && PlanSound(lib, db, actor, req, plan) && plan.DetectPlan? && req.DetectConflicts? && PlanMade(lib, db, plan)
    requires Commit(db, actor, req, plan).Some? && Follows(db, Commit(db, actor, req, plan).value)
    ensures exists b :: MadeFrom(lib, Commit(db, actor, req, plan).value, RunOf(db, actor, req.key, plan), b)
  {
    hide Sound, Follows, Detect, HashAgrees, DetectionsFit, WasRead, Yields, Inserted;
    var d := Commit(db, actor, req, plan).value;
    var b :| WasRead(lib, db, b) && Yields(lib, b, plan.source.id, plan.detections, plan.requestHash, plan.inputHash);
    KeepsDetection(lib, db, actor, req.key, plan);
    WasReadStays(lib, db, d, b);
    InsertedResults(db, d, actor, req.key, plan);
    assert MadeFrom(lib, d, RunOf(db, actor, req.key, plan), b);
  }
}
