/**
  Every interleaving: what each call knows at each point stays true while other calls
  commit, and the database is sound after every move of every run.
 */
module Interleaving {
  import opened Boundaries
  import opened Lifecycles
  import opened Records
  import opened AuditTrail
  import opened Invariants
  import opened Requests
  import opened Calls
  import opened Transactions
  import Commits
  import Snapping
  import Topology
  import Hashing

  // --- What a call knows --------------------------------------------------------------

  /** The rows returned are the run's results in the run's order; lifecycle states may differ. */
  ghost predicate SameResults(db: Db, run: DetectionRun, items: seq<Conflict>) {
    && |items| == |run.resultIDs|
    && forall i | 0 <= i < |items| ::
         && items[i].id == run.resultIDs[i] && items[i].id in db.conflicts
         && items[i].detection == db.conflicts[items[i].id].detection
  }

  ghost predicate RunAnswers(lib: Library, db: Db, actor: Actor, req: Request, run: DetectionRun) {
    && run.id in db.runs && db.runs[run.id] == run
    && req.DetectConflicts? && run.actorID == actor.id && run.key == req.key
    && HashAgrees(lib, db, req, run.requestHash)
  }

  /** A successful detection answer is backed by the stored run of its actor and key. */
  ghost predicate AnswerSound(lib: Library, db: Db, actor: Actor, req: Request, response: Response) {
    response.ConflictsAnswer? ==>
      exists r :: r in db.runs && RunAnswers(lib, db, actor, req, db.runs[r]) && SameResults(db, db.runs[r], response.conflicts)
  }

  ghost predicate CallSound(lib: Library, db: Db, call: Call) {
    var req := call.req;
    match call.progress
    case Started => true
    case ObservationRead(item) =>
      && SeenObservation(db, item) && CanTransitionObservation(item.state, Superseded)
      && req.TransitionObservation? && req.toObservation == Superseded && req.replacement.Some? && req.replacement.value != item.id
    case ParcelRead(parcel, _) =>
      SeenParcel(db, parcel) && req.CreateProposal? && parcel.id == req.parcelID && parcel.version == req.baseVersion
    case ConflictRead(conflict) => SeenConflict(db, conflict) && conflict.state == ResolutionProposed
    case SourceRead(conflict, proposal) =>
      SeenConflict(db, conflict) && conflict.state == ResolutionProposed && SeenProposal(db, proposal)
    case ProposalRead(proposal) => SeenProposal(db, proposal) && req.DetectConflicts? && proposal.id == req.proposalID
    case KeyUnused(proposal) => SeenProposal(db, proposal) && req.DetectConflicts? && proposal.id == req.proposalID
    case ParcelOfProposalRead(proposal, parcel) =>
      SeenProposal(db, proposal) && req.DetectConflicts? && proposal.id == req.proposalID && SeenParcel(db, parcel)
    case Ready(plan) => PlanSound(lib, db, call.actor, req, plan)
    case TransactionFailed(hash) => HashAgrees(lib, db, req, hash) && (call.actor.requestID == "" || db.RunKeyTaken(call.actor.id, req.key))
    case Replaying(run) => RunAnswers(lib, db, call.actor, req, run)
    case Answered(response) => AnswerSound(lib, db, call.actor, req, response)
  }

  ghost predicate SystemSound(lib: Library, s: System) {
    Sound(lib, s.db) && forall i | 0 <= i < |s.calls| :: CallSound(lib, s.db, s.calls[i])
  }

  // --- Knowledge is stable ----------------------------------------------------------------

  lemma SeenStays(a: Db, b: Db)
    requires Follows(a, b)
    ensures forall p | SeenParcel(a, p) :: SeenParcel(b, p)
    ensures forall o | SeenObservation(a, o) :: SeenObservation(b, o)
    ensures forall p | SeenProposal(a, p) :: SeenProposal(b, p)
    ensures forall c | SeenConflict(a, c) :: SeenConflict(b, c)
  {
    hide Replay;
  }

  lemma HashStays(lib: Library, a: Db, b: Db, req: Request, hash: string)
    requires Follows(a, b) && HashAgrees(lib, a, req, hash)
    ensures req.DetectConflicts? && HashAgrees(lib, b, req, hash)
  {
    hide Replay;
  }

  lemma RunAnswersStays(lib: Library, a: Db, b: Db, actor: Actor, req: Request, run: DetectionRun)
    requires Follows(a, b) && RunAnswers(lib, a, actor, req, run)
    ensures RunAnswers(lib, b, actor, req, run)
  {
    hide Replay, HashAgrees;
    HashStays(lib, a, b, req, run.requestHash);
  }

  lemma ResultsStay(a: Db, b: Db, run: DetectionRun, items: seq<Conflict>)
    requires Follows(a, b) && SameResults(a, run, items)
    ensures SameResults(b, run, items)
  {
    hide Replay;
  }

  lemma AnswerStays(lib: Library, a: Db, b: Db, actor: Actor, req: Request, response: Response)
    requires Follows(a, b) && AnswerSound(lib, a, actor, req, response)
    ensures AnswerSound(lib, b, actor, req, response)
  {
    if response.ConflictsAnswer? {
      var r :| r in a.runs && RunAnswers(lib, a, actor, req, a.runs[r]) && SameResults(a, a.runs[r], response.conflicts);
      RunAnswersStays(lib, a, b, actor, req, a.runs[r]);
      ResultsStay(a, b, a.runs[r], response.conflicts);
      assert r in b.runs && b.runs[r] == a.runs[r];
    }
  }

  lemma PlanStays(lib: Library, a: Db, b: Db, actor: Actor, req: Request, plan: Plan)
    requires Follows(a, b) && PlanSound(lib, a, actor, req, plan)
    ensures PlanSound(lib, b, actor, req, plan)
  {
    hide Follows, Replay, SeenParcel, SeenObservation, SeenProposal, SeenConflict, BoundarySound, DraftSound, HashAgrees, DetectionsFit,
      MayMoveProposal;
    SeenStays(a, b);
    DraftsStay(lib, a, b);
    RowsRemain(a, b);
    match plan
    case DetectPlan(_, _, _, hash, _) => HashStays(lib, a, b, req, hash);
    case _ =>
  }

  lemma DraftsStay(lib: Library, a: Db, b: Db)
    requires Follows(a, b)
    ensures forall p | DraftSound(lib, Replay(a.audits), p) :: DraftSound(lib, Replay(b.audits), p)
  {
    forall p | DraftSound(lib, Replay(a.audits), p) ensures DraftSound(lib, Replay(b.audits), p) {
      Commits.DraftStaysSound(lib, Replay(a.audits), Replay(b.audits), p);
    }
  }

  lemma RowsRemain(a: Db, b: Db)
    requires Follows(a, b)
    ensures forall id | id in a.observations :: id in b.observations && b.observations[id].parcelID == a.observations[id].parcelID
    ensures a.proposals.Keys <= b.proposals.Keys && Replay(a.audits).parcels.Keys <= Replay(b.audits).parcels.Keys
  {
    hide Replay, SameDraft;
  }

  lemma CallStays(lib: Library, a: Db, b: Db, call: Call)
    requires Follows(a, b) && CallSound(lib, a, call)
    ensures CallSound(lib, b, call)
  {
    hide Follows, SeenParcel, SeenObservation, SeenProposal, SeenConflict, PlanSound, HashAgrees, RunAnswers, AnswerSound,
      CanTransitionObservation, Db.RunKeyTaken;
    SeenStays(a, b);
    match call.progress
    case Ready(plan) => PlanStays(lib, a, b, call.actor, call.req, plan);
    case TransactionFailed(hash) =>
      HashStays(lib, a, b, call.req, hash);
      KeyStaysTaken(a, b, call.actor.id, call.req.key);
    case Replaying(run) => RunAnswersStays(lib, a, b, call.actor, call.req, run);
    case Answered(response) => AnswerStays(lib, a, b, call.actor, call.req, response);
    case _ =>
  }

  lemma KeyStaysTaken(a: Db, b: Db, actorID: nat, key: string)
    requires Follows(a, b)
    ensures a.RunKeyTaken(actorID, key) ==> b.RunKeyTaken(actorID, key)
  {
    hide Replay;
  }

  // --- Reading -------------------------------------------------------------------------------

  lemma RowsAreSeen(lib: Library, db: Db)
    requires Sound(lib, db)
    ensures forall id | id in db.parcels :: SeenParcel(db, db.parcels[id]) && BoundarySound(lib, db.parcels[id]) && db.parcels[id].id == id
    ensures forall id | id in db.observations :: SeenObservation(db, db.observations[id]) && db.observations[id].id == id
    ensures forall id | id in db.proposals :: SeenProposal(db, db.proposals[id]) && db.proposals[id].id == id
    ensures forall id | id in db.conflicts :: SeenConflict(db, db.conflicts[id]) && db.conflicts[id].id == id
    ensures forall id | id in db.runs :: db.runs[id].id == id
    ensures Replay(db.audits).parcels.Keys == db.parcels.Keys
  {
    hide Parsed, AreaOf, ProposalsSound, ObservationsSound, ConflictsSound, AppliedSound, RunsSound, LegalLog, Replay;
    ParcelRowsAreSeen(lib, db, Replay(db.audits));
  }

  lemma ParcelRowsAreSeen(lib: Library, db: Db, l: Ledger)
    requires l == Replay(db.audits) && Mirrors(l, db) && ParcelsSound(lib, l) && KeysSound(db)
    ensures forall id | id in db.parcels :: SeenParcel(db, db.parcels[id]) && BoundarySound(lib, db.parcels[id])
  {
    hide Parsed, AreaOf, Replay, SameDraft;
    forall id | id in db.parcels ensures SeenParcel(db, db.parcels[id]) && BoundarySound(lib, db.parcels[id]) {
      var row, history := db.parcels[id], l.parcels[id];
      assert ParcelAgrees(row, history);
      assert BoundarySound(lib, history[|history| - 1]);
    }
  }

  /** A draft against a parcel snapshot is sound: the snapshot is in the parcel's history at its version. */
  lemma SnapshotDraftIsSound(lib: Library, db: Db, parcel: Parcel, draft: Proposal)
    requires SeenParcel(db, parcel) && Parsed(lib, draft.geometry).Some?
    requires draft.parcelID == parcel.id && draft.baseVersion == parcel.version
    requires draft.areaDelta == AreaOf(lib, draft.geometry) - parcel.area
    ensures DraftSound(lib, Replay(db.audits), draft)
  {
    hide Parsed, AreaOf, Replay;
  }

  lemma UpdatedIsSound(lib: Library, before: Parcel, req: Request)
    requires req.UpdateParcel? && BoundarySound(lib, before) && Updated(lib, before, req).Some?
    ensures var after := Updated(lib, before, req).value;
      BoundarySound(lib, after) && after.id == before.id && after.code == before.code && after.version == before.version
  {
    hide Parsed, AreaOf;
  }

  lemma OtherAnswersAreSound(lib: Library, db: Db, actor: Actor, req: Request)
    ensures forall response: Response | !response.ConflictsAnswer? :: AnswerSound(lib, db, actor, req, response)
  {
  }

  lemma StartPlans(lib: Library, db: Db, actor: Actor, req: Request)
    requires Sound(lib, db) && Start(lib, db, actor, req).Ready?
    ensures PlanSound(lib, db, actor, req, Start(lib, db, actor, req).plan)
  {
    hide Sound, Fits, Parsed, AreaOf, SeenParcel, SeenObservation, SeenProposal, SeenConflict, Replay, CanProposalTransition, MayMoveProposal,
      CanConflictTransition, Updated, HashAgrees, DetectionsFit, DraftSound;
    RowsAreSeen(lib, db);
    if req.UpdateParcel? {
      UpdatedIsSound(lib, db.parcels[req.id], req);
    }
  }

  lemma StartKnows(lib: Library, db: Db, actor: Actor, req: Request)
    requires Sound(lib, db)
    ensures CallSound(lib, db, Call(actor, req, Start(lib, db, actor, req)))
  {
    hide Sound, Fits, Parsed, SeenParcel, SeenObservation, SeenProposal, SeenConflict, Replay, CanProposalTransition, MayMoveProposal,
      CanConflictTransition, Updated, AnswerSound, HashAgrees, RunAnswers, Db.RunKeyTaken, PlanSound, BoundarySound;
    RowsAreSeen(lib, db);
    OtherAnswersAreSound(lib, db, actor, req);
    if Start(lib, db, actor, req).Ready? {
      StartPlans(lib, db, actor, req);
    }
  }

  lemma {:induction false} NeighboursParse(lib: Library, neighbours: seq<Parcel>)
    requires forall p | p in neighbours :: Parsed(lib, p.boundary).Some?
    ensures References(lib, neighbours).Some?
  {
    hide Parsed;
    if |neighbours| > 0 {
      NeighboursParse(lib, neighbours[..|neighbours| - 1]);
    }
  }

  lemma {:induction false} NeighboursAreRows(db: Db, system: string, exclude: nat, n: nat)
    ensures forall p | p in db.NeighboursBelow(system, exclude, n) :: exists id :: id in db.parcels && db.parcels[id] == p
  {
    if n > 0 {
      NeighboursAreRows(db, system, exclude, n - 1);
    }
  }

  /** Stored boundaries always parse, so detection never fails on a stored neighbour. */
  lemma StoredNeighboursParse(lib: Library, db: Db, system: string, exclude: nat)
    requires Sound(lib, db)
    ensures References(lib, db.ActiveNeighbours(system, exclude)).Some?
  {
    RowsAreSeen(lib, db);
    NeighboursAreRows(db, system, exclude, db.next.parcel);
    hide Sound, SeenParcel, SeenProposal, SeenObservation, SeenConflict;
    NeighboursParse(lib, db.ActiveNeighbours(system, exclude));
  }

  lemma AnalysisFits(lib: Library, proposal: Proposal, parcel: Parcel, neighbours: seq<Parcel>, tolerance: real, now: int)
    requires Parsed(lib, parcel.boundary).Some? && Parsed(lib, proposal.geometry).Some?
    requires Analysed(lib, proposal, parcel, neighbours, tolerance, now).Ok?
    ensures DetectionsFit(lib, Analysed(lib, proposal, parcel, neighbours, tolerance, now).value, proposal.id,
                          Hashing.InputHash(InputOf(lib, proposal, parcel, neighbours, tolerance)))
  {
    var base, proposed := Parsed(lib, parcel.boundary).value, Parsed(lib, proposal.geometry).value;
    var references := References(lib, neighbours).value;
    SnappedParses(lib, proposed, [base] + PolygonsOf(references), tolerance);
    hide Parsed, References, Snapping.Snapped, Topology.Detected, Hashing.InputHash;
  }

  lemma SnappedParses(lib: Library, candidate: Polygon, references: seq<Polygon>, tolerance: real)
    ensures var r := Snapping.Snapped(lib, candidate, references, tolerance);
      r.Some? && tolerance > 0.0 ==> Parsed(lib, r.value.encoded).Some?
  {
    hide Parsed;
  }

  lemma AnalyseKnows(lib: Library, db: Db, actor: Actor, req: Request, proposal: Proposal, parcel: Parcel)
    requires Fits(lib, req, ParcelOfProposalRead(proposal, parcel))
    requires req.DetectConflicts? && SeenProposal(db, proposal) && proposal.id == req.proposalID
    ensures CallSound(lib, db, Call(actor, req, Analyse(lib, db, req, proposal, parcel)))
  {
    hide Sound, Fits, Analyse, HashAgrees, DetectionsFit, SeenProposal, CallSound, PlanSound, AnswerSound, RequestHashOf;
    var p := Analyse(lib, db, req, proposal, parcel);
    AnalysisPlans(lib, db, req, proposal, parcel);
    OwnHashAgrees(lib, db, req, proposal);
    OtherAnswersAreSound(lib, db, actor, req);
    ReadyOrAnswered(lib, db, actor, req, p);
    if p.Ready? {
      DetectPlanIsSound(lib, db, actor, req, p.plan);
    }
  }

  lemma AnalysisPlans(lib: Library, db: Db, req: Request, proposal: Proposal, parcel: Parcel)
    requires Fits(lib, req, ParcelOfProposalRead(proposal, parcel))
    ensures var p := Analyse(lib, db, req, proposal, parcel);
      || (p.Answered? && p.response.Failed?)
      || (p.Ready? && p.plan.DetectPlan? && p.plan.source == proposal && p.plan.requestHash == RequestHashOf(lib, req, proposal)
          && DetectionsFit(lib, p.plan.detections, proposal.id, p.plan.inputHash))
  {
    hide Parsed, Analysed, DetectionsFit, InputOf, Hashing.InputHash, RequestHashOf, Db.ActiveNeighbours;
    var neighbours := db.ActiveNeighbours(parcel.coordinateSystem, parcel.id);
    var tolerance := EffectiveTolerance(req.tolerance, proposal);
    if Analysed(lib, proposal, parcel, neighbours, tolerance, req.now).Ok? {
      AnalysisFits(lib, proposal, parcel, neighbours, tolerance, req.now);
    }
  }

  lemma ReadyOrAnswered(lib: Library, db: Db, actor: Actor, req: Request, p: Progress)
    requires p.Ready? || p.Answered?
    ensures p.Ready? ==> CallSound(lib, db, Call(actor, req, p)) == PlanSound(lib, db, actor, req, p.plan)
    ensures p.Answered? ==> CallSound(lib, db, Call(actor, req, p)) == AnswerSound(lib, db, actor, req, p.response)
  {
    hide PlanSound, AnswerSound;
  }

  lemma DetectPlanIsSound(lib: Library, db: Db, actor: Actor, req: Request, plan: Plan)
    requires plan.DetectPlan? && req.DetectConflicts? && plan.source.id == req.proposalID && plan.source.id in db.proposals
    requires HashAgrees(lib, db, req, plan.requestHash) && DetectionsFit(lib, plan.detections, plan.source.id, plan.inputHash)
    ensures PlanSound(lib, db, actor, req, plan)
  {
    hide HashAgrees, DetectionsFit;
  }

  /** A proposal's tolerance never changes, so the request hash can be computed from any snapshot of it. */
  lemma OwnHashAgrees(lib: Library, db: Db, req: Request, proposal: Proposal)
    requires req.DetectConflicts? && SeenProposal(db, proposal) && proposal.id == req.proposalID
    ensures HashAgrees(lib, db, req, RequestHashOf(lib, req, proposal))
    ensures req.proposalID in db.proposals
  {
    hide Hashing.RequestHash;
  }

  lemma SoundRuns(lib: Library, db: Db)
    requires Sound(lib, db)
    ensures KeysSound(db) && RunsSound(db, [])
  {
    hide RunsSound;
  }

  // --- Looking a run up ------------------------------------------------------------------------

  lemma {:induction false} FindRunFinds(db: Db, actorID: nat, key: string, n: nat)
    ensures var r := db.FindRun(actorID, key, n);
      && (r.Some? ==> exists id :: id in db.runs && id < n && db.runs[id] == r.value && r.value.actorID == actorID && r.value.key == key)
      && (r.None? ==> forall id | id in db.runs && id < n :: !(db.runs[id].actorID == actorID && db.runs[id].key == key))
  {
    if n > 0 {
      FindRunFinds(db, actorID, key, n - 1);
    }
  }

  /** The lookup succeeds exactly when the key is taken, and yields a stored run. */
  lemma LookUpIsExact(db: Db, actorID: nat, key: string)
    requires KeysSound(db)
    ensures db.RunFor(actorID, key).Some? <==> db.RunKeyTaken(actorID, key)
    ensures db.RunFor(actorID, key).Some? ==>
      var run := db.RunFor(actorID, key).value;
      run.id in db.runs && db.runs[run.id] == run && run.actorID == actorID && run.key == key
  {
    FindRunFinds(db, actorID, key, db.next.run);
    hide Db.FindRun;
  }

  lemma ReuseKnows(lib: Library, db: Db, actor: Actor, req: Request, hash: string)
    requires Sound(lib, db) && req.DetectConflicts? && HashAgrees(lib, db, req, hash) && db.RunFor(actor.id, req.key).Some?
    ensures CallSound(lib, db, Call(actor, req, Reuse(db.RunFor(actor.id, req.key).value, hash)))
  {
    hide Sound, Db.RunFor, Db.RunKeyTaken, HashAgrees, KeysSound, RunsSound;
    SoundRuns(lib, db);
    LookUpIsExact(db, actor.id, req.key);
  }

  lemma {:induction false} ConflictsByIDListed(db: Db, ids: seq<nat>)
    ensures db.ConflictsByID(ids).Some? <==> forall c | c in ids :: c in db.conflicts
    ensures db.ConflictsByID(ids).Some? ==>
      var items := db.ConflictsByID(ids).value;
      |items| == |ids| && forall i | 0 <= i < |ids| :: ids[i] in db.conflicts && items[i] == db.conflicts[ids[i]]
  {
  }

  /** A stored run's conflicts are all there: replaying never misses one. */
  lemma ReplayFindsEveryResult(lib: Library, db: Db, actor: Actor, req: Request, run: DetectionRun)
    requires Sound(lib, db) && RunAnswers(lib, db, actor, req, run)
    ensures db.ConflictsByID(run.resultIDs).Some?
    ensures LoadResults(db, run) == Answered(ConflictsAnswer(db.ConflictsByID(run.resultIDs).value))
    ensures SameResults(db, run, db.ConflictsByID(run.resultIDs).value)
  {
    hide Sound, Db.ConflictsByID, InSomeRun, HashAgrees;
    SoundRuns(lib, db);
    assert RunSound(db, db.runs[run.id]);
    ConflictsByIDListed(db, run.resultIDs);
  }

  // --- One step -----------------------------------------------------------------------------------

  lemma ReadKnows(lib: Library, db: Db, call: Call)
    requires Sound(lib, db) && Fits(lib, call.req, call.progress) && CallSound(lib, db, call)
    requires !call.progress.Ready?
    ensures CallSound(lib, db, call.(progress := Advance(lib, db, call.actor, call.req, call.progress).1))
  {
    hide Sound, Parsed, AreaOf, Updated, Start, Analyse, Replay, SeenParcel, SeenObservation, SeenProposal, SeenConflict, RunAnswers,
      SameResults, DraftSound, CanTransitionObservation, DefaultRationale, Db.RunFor, Db.RunKeyTaken, Db.ConflictsByID, HashAgrees, BoundarySound,
      RequestHashOf;
    var actor, req := call.actor, call.req;
    match call.progress
    case Started => StartKnows(lib, db, actor, req);
    case ObservationRead(item) => ReplacementKnows(lib, db, actor, req, item);
    case ParcelRead(parcel, checked) => CitedKnows(lib, db, actor, req, parcel, checked);
    case ConflictRead(conflict) => RowsAreSeen(lib, db);
    case SourceRead(conflict, proposal) => DeriveKnows(lib, db, actor, req, conflict, proposal);
    case ProposalRead(proposal) => LookUpKnows(lib, db, actor, req, proposal);
    case KeyUnused(proposal) => RowsAreSeen(lib, db);
    case ParcelOfProposalRead(proposal, parcel) => AnalyseKnows(lib, db, actor, req, proposal, parcel);
    case TransactionFailed(hash) =>
      if db.RunFor(actor.id, req.key).Some? {
        ReuseKnows(lib, db, actor, req, hash);
      }
    case Replaying(run) => ReplayKnows(lib, db, actor, req, run);
    case Answered(_) =>
  }

  lemma ReplacementKnows(lib: Library, db: Db, actor: Actor, req: Request, item: Observation)
    requires Sound(lib, db) && CallSound(lib, db, Call(actor, req, ObservationRead(item)))
    ensures CallSound(lib, db, Call(actor, req, CheckReplacement(db, item, req.toObservation, req.replacement.value, req.note)))
  {
    hide Sound, SeenObservation, CanTransitionObservation;
  }

  lemma CitedKnows(lib: Library, db: Db, actor: Actor, req: Request, parcel: Parcel, checked: nat)
    requires Sound(lib, db) && CallSound(lib, db, Call(actor, req, ParcelRead(parcel, checked)))
    requires Fits(lib, req, ParcelRead(parcel, checked))
    ensures CallSound(lib, db, Call(actor, req, CheckCited(lib, db, actor, req, parcel, checked)))
  {
    hide Sound, SeenParcel, DraftSound, Parsed, AreaOf;
    if checked == |req.observationIDs| {
      SnapshotDraftIsSound(lib, db, parcel, CheckCited(lib, db, actor, req, parcel, checked).plan.proposal);
    }
  }

  lemma DeriveKnows(lib: Library, db: Db, actor: Actor, req: Request, conflict: Conflict, proposal: Proposal)
    requires Sound(lib, db) && CallSound(lib, db, Call(actor, req, SourceRead(conflict, proposal)))
    requires Fits(lib, req, SourceRead(conflict, proposal))
    ensures CallSound(lib, db, Call(actor, req, Derive(lib, db, actor, conflict, proposal, req.rationale)))
  {
    hide Sound, SeenParcel, SeenConflict, SeenProposal, SeenObservation, DraftSound, Parsed, AreaOf, DefaultRationale, BoundarySound,
      AnswerSound, HashAgrees, DetectionsFit, RunAnswers, Db.RunKeyTaken, Replay;
    RowsAreSeen(lib, db);
    OtherAnswersAreSound(lib, db, actor, req);
    if proposal.parcelID in db.parcels {
      SnapshotDraftIsSound(lib, db, db.parcels[proposal.parcelID],
                           Derive(lib, db, actor, conflict, proposal, req.rationale).plan.proposal);
    }
  }

  lemma LookUpKnows(lib: Library, db: Db, actor: Actor, req: Request, proposal: Proposal)
    requires Sound(lib, db) && CallSound(lib, db, Call(actor, req, ProposalRead(proposal)))
    ensures CallSound(lib, db, Call(actor, req, LookUpKey(lib, db, actor, req, proposal)))
  {
    hide Sound, Db.RunFor, HashAgrees, RequestHashOf, SeenProposal;
    OwnHashAgrees(lib, db, req, proposal);
    if db.RunFor(actor.id, req.key).Some? {
      ReuseKnows(lib, db, actor, req, RequestHashOf(lib, req, proposal));
    }
  }

  lemma ReplayKnows(lib: Library, db: Db, actor: Actor, req: Request, run: DetectionRun)
    requires Sound(lib, db) && RunAnswers(lib, db, actor, req, run)
    ensures CallSound(lib, db, Call(actor, req, LoadResults(db, run)))
  {
    hide Sound, SameResults, Db.ConflictsByID, HashAgrees;
    ReplayFindsEveryResult(lib, db, actor, req, run);
    assert run.id in db.runs && RunAnswers(lib, db, actor, req, db.runs[run.id]);
  }

  /** A detection transaction fails only for an unidentified request or a key that is taken. */
  lemma {:induction false} DetectFailsOnlyFor(db: Db, actor: Actor, key: string, plan: Plan)
    requires plan.DetectPlan? && Detect(db, actor, key, plan).None?
    ensures actor.requestID == "" || db.RunKeyTaken(actor.id, key)
  {
    if actor.requestID != "" {
      ConflictsAreAdded(db, actor, plan.parcelID, plan.detections);
      ConflictsInserted(db, actor, plan.parcelID, plan.detections);
      hide AddConflicts;
    }
  }

  lemma {:induction false} ConflictsAreAdded(db: Db, actor: Actor, parcelID: nat, detections: seq<Detection>)
    requires actor.requestID != ""
    ensures AddConflicts(db, actor, parcelID, detections).Some?
  {
    if |detections| > 0 {
      ConflictsAreAdded(db, actor, parcelID, detections[..|detections| - 1]);
    }
  }

  lemma CommitKnows(lib: Library, db: Db, call: Call)
    requires Sound(lib, db) && Fits(lib, call.req, call.progress) && CallSound(lib, db, call)
    requires call.progress.Ready?
    ensures var (next, progress) := Advance(lib, db, call.actor, call.req, call.progress);
      Sound(lib, next) && Follows(db, next) && CallSound(lib, next, call.(progress := progress))
  {
    var actor, req, plan := call.actor, call.req, call.progress.plan;
    hide Sound, Follows, PlanSound, CallSound, Fits, Commit, Confirmation, Refusal, Advance;
    FittingPlan(lib, req, plan);
    CommitStep(lib, db, actor, req, plan);
    ReadyOrAnswered(lib, db, actor, req, call.progress);
    assert call == Call(actor, req, Ready(plan));
    if Commit(db, actor, req, plan).Some? {
      CommitKeepsSound(lib, db, actor, req, plan);
      AnswerAfterCommit(lib, db, actor, req, plan);
    } else {
      FollowsItself(db);
      KnownAfterRefusal(lib, db, actor, req, plan);
    }
  }

  lemma FittingPlan(lib: Library, req: Request, plan: Plan)
    requires Fits(lib, req, Ready(plan))
    ensures plan.DetectPlan? ==> req.DetectConflicts?
  {
  }

  lemma KnownAfterRefusal(lib: Library, db: Db, actor: Actor, req: Request, plan: Plan)
    requires plan.DetectPlan? ==> req.DetectConflicts?
    requires PlanSound(lib, db, actor, req, plan) && Commit(db, actor, req, plan).None?
    ensures CallSound(lib, db, Call(actor, req, Refusal(db, plan)))
  {
    hide PlanSound, CallSound, Commit;
    if plan.DetectPlan? {
      RefusalIsSound(lib, db, actor, req, plan);
    } else {
      OtherAnswersAreSound(lib, db, actor, req);
      ReadyOrAnswered(lib, db, actor, req, Refusal(db, plan));
    }
  }

  lemma AnswerAfterCommit(lib: Library, db: Db, actor: Actor, req: Request, plan: Plan)
    requires plan.DetectPlan? ==> req.DetectConflicts?
    requires Sound(lib, db) && PlanSound(lib, db, actor, req, plan) && Commit(db, actor, req, plan).Some?
    ensures CallSound(lib, Commit(db, actor, req, plan).value, Call(actor, req, Answered(Confirmation(db, actor, plan))))
  {
    hide Sound, PlanSound, CallSound, Commit, AnswerSound, Confirmation;
    var next := Commit(db, actor, req, plan).value;
    PlainAnswer(db, actor, plan);
    OtherAnswersAreSound(lib, next, actor, req);
    ReadyOrAnswered(lib, next, actor, req, Answered(Confirmation(db, actor, plan)));
    if plan.DetectPlan? {
      ConfirmationIsSound(lib, db, actor, req, plan);
    }
  }

  lemma PlainAnswer(db: Db, actor: Actor, plan: Plan)
    ensures Confirmation(db, actor, plan).ConflictsAnswer? <==> plan.DetectPlan?
  {
  }

  lemma RefusalIsSound(lib: Library, db: Db, actor: Actor, req: Request, plan: Plan)
    requires PlanSound(lib, db, actor, req, plan) && plan.DetectPlan? && Commit(db, actor, req, plan).None?
    ensures CallSound(lib, db, Call(actor, req, TransactionFailed(plan.requestHash)))
  {
    hide Detect, HashAgrees, DetectionsFit, Db.RunKeyTaken;
    DetectFailsOnlyFor(db, actor, req.key, plan);
  }

  /** The first answer lists exactly what was stored under the new run. */
  lemma ConfirmationIsSound(lib: Library, db: Db, actor: Actor, req: Request, plan: Plan)
    requires Sound(lib, db) && PlanSound(lib, db, actor, req, plan) && plan.DetectPlan?
    requires Commit(db, actor, req, plan).Some?
    ensures AnswerSound(lib, Commit(db, actor, req, plan).value, actor, req, Confirmation(db, actor, plan))
  {
    hide Sound, Follows, Detect, HashAgrees, DetectionsFit;
    var d := Commit(db, actor, req, plan).value;
    KeepsDetection(lib, db, actor, req.key, plan);
    HashStays(lib, db, d, req, plan.requestHash);
    var items, run := DetectedItems(db.next.conflict, plan.detections), RunOf(db, actor, req.key, plan);
    forall i | 0 <= i < |items| ensures items[i].id in d.conflicts && d.conflicts[items[i].id] == items[i] {
      assert items[i] in items;
    }
    assert SameResults(d, run, items);
    assert RunAnswers(lib, d, actor, req, run);
    assert db.next.run in d.runs && d.runs[db.next.run] == run;
  }

  /** One step of one call keeps the database sound, only lets rows evolve, and leaves the call with true knowledge. */
  lemma StepKeepsSound(lib: Library, db: Db, call: Call)
    requires Sound(lib, db) && Fits(lib, call.req, call.progress) && CallSound(lib, db, call)
    ensures var (next, progress) := Advance(lib, db, call.actor, call.req, call.progress);
      Sound(lib, next) && Follows(db, next) && CallSound(lib, next, call.(progress := progress))
  {
    hide Sound, Follows, CallSound;
    if call.progress.Ready? {
      CommitKnows(lib, db, call);
    } else {
      FollowsItself(db);
      ReadKnows(lib, db, call);
    }
  }

  lemma SkippingKeepsSound(lib: Library, db: Db, upTo: Sequences)
    requires Sound(lib, db)
    ensures var d := db.(next := Later(db.next, upTo));
      Sound(lib, d) && Follows(db, d)
  {
    var d := db.(next := Later(db.next, upTo));
    SkippingIsFollowed(db, d);
    SkippingKeepsCore(lib, db, d);
    hide Core, Follows;
    RunsStaySound(db, d, []);
  }

  lemma SkippingKeepsCore(lib: Library, db: Db, d: Db)
    requires Core(lib, db, {}) && d == db.(next := d.next)
    requires d.next.parcel >= db.next.parcel && d.next.observation >= db.next.observation && d.next.proposal >= db.next.proposal
    requires d.next.conflict >= db.next.conflict && d.next.run >= db.next.run
    ensures Core(lib, d, {})
  {
    hide Replay, LegalLog, Mirrors, KeysSound, ParcelsSound, ProposalsSound, ObservationsSound, ConflictsSound, AppliedSound;
    var l := Replay(db.audits);
    Commits.MirrorsSameRows(l, db, d);
    Commits.ProposalsStaySound(lib, db, l, d, l);
    Commits.ObservationsStaySound(db, d);
    Commits.ConflictsStaySound(lib, db, l, d, l);
    Commits.AppliedStaysSound(db, l, d, l, {});
    KeysAfterSkipping(db, d);
  }

  lemma KeysAfterSkipping(db: Db, d: Db)
    requires KeysSound(db) && d == db.(next := d.next)
    requires d.next.parcel >= db.next.parcel && d.next.observation >= db.next.observation && d.next.proposal >= db.next.proposal
    requires d.next.conflict >= db.next.conflict && d.next.run >= db.next.run
    ensures KeysSound(d)
  {
  }

  lemma SkippingIsFollowed(db: Db, d: Db)
    requires d == db.(next := d.next)
    ensures Follows(db, d)
  {
  }

  lemma CallsStay(lib: Library, a: Db, b: Db, calls: seq<Call>)
    requires Follows(a, b)
    ensures forall k | 0 <= k < |calls| && CallSound(lib, a, calls[k]) :: CallSound(lib, b, calls[k])
  {
    hide Follows, CallSound;
    forall k | 0 <= k < |calls| && CallSound(lib, a, calls[k]) ensures CallSound(lib, b, calls[k]) {
      CallStays(lib, a, b, calls[k]);
    }
  }

  /** One move of the whole system. */
  lemma MoveKeepsSound(lib: Library, s: System, move: Move)
    requires WellPlaced(lib, s) && SystemSound(lib, s)
    ensures SystemSound(lib, Do(lib, s, move)) && Follows(s.db, Do(lib, s, move).db)
  {
    hide Sound, Follows, CallSound;
    FollowsItself(s.db);
    match move
    case Send(actor, req) => NewCallSound(lib, s.db, actor, req);
    case Step(i) =>
      if i < |s.calls| {
        StepKeepsSound(lib, s.db, s.calls[i]);
        CallsStay(lib, s.db, Do(lib, s, move).db, s.calls);
      }
    case SkipIDs(upTo) =>
      SkippingKeepsSound(lib, s.db, upTo);
      CallsStay(lib, s.db, Do(lib, s, move).db, s.calls);
  }

  lemma NewCallSound(lib: Library, db: Db, actor: Actor, req: Request)
    ensures CallSound(lib, db, Call(actor, req, Started))
  {
  }

  /** Over every run: any number of clients, any requests, any interleaving of their steps. */
  lemma {:induction false} EveryRunIsSound(lib: Library, moves: seq<Move>)
    ensures SystemSound(lib, Run(lib, moves))
  {
    if |moves| == 0 {
      EmptyIsSound(lib);
    } else {
      EveryRunIsSound(lib, moves[..|moves| - 1]);
      MoveKeepsSound(lib, Run(lib, moves[..|moves| - 1]), moves[|moves| - 1]);
    }
  }

  /** Later states of a run follow from earlier ones: rows evolve, nothing disappears, the log only grows. */
  lemma {:induction false} RunsOnlyEvolve(lib: Library, moves: seq<Move>, n: nat)
    requires n <= |moves|
    ensures Follows(Run(lib, moves[..n]).db, Run(lib, moves).db)
    decreases |moves|
  {
    hide Follows, SystemSound, Do;
    if n == |moves| {
      assert moves[..n] == moves;
      FollowsItself(Run(lib, moves).db);
    } else {
      var m := |moves| - 1;
      RunsOnlyEvolve(lib, moves[..m], n);
      assert moves[..m][..n] == moves[..n];
      EveryRunIsSound(lib, moves[..m]);
      MoveKeepsSound(lib, Run(lib, moves[..m]), moves[m]);
      FollowsTransitively(Run(lib, moves[..n]).db, Run(lib, moves[..m]).db, Run(lib, moves).db);
    }
  }
}
