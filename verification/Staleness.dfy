/** What versions protect and what they do not, and how answers relate to the rows they report. */
module Staleness {
  import opened Options
  import opened Boundaries
  import opened Lifecycles
  import opened Records
  import opened AuditTrail
  import opened Invariants
  import opened Requests
  import opened Calls
  import opened Transactions
  import opened Interleaving
  import opened Histories
  import opened Scheduling

  // --- Proposals -----------------------------------------------------------------------------

  /** Moving a proposal never looks at the version in the request. */
  lemma RequestVersionIsIgnored(lib: Library, db: Db, actor: Actor, id: nat, to: ProposalState, v: nat, w: nat, rationale: string)
    ensures Serve(lib, db, actor, Request.TransitionProposal(id, to, v, rationale), Started)
         == Serve(lib, db, actor, Request.TransitionProposal(id, to, w, rationale), Started)
  {
    hide Serve;
    ServedAtOnce(lib, db, actor, Request.TransitionProposal(id, to, v, rationale));
    ServedAtOnce(lib, db, actor, Request.TransitionProposal(id, to, w, rationale));
  }

  // --- When a transaction fails -------------------------------------------------------------------

  /** What a plan was made from is no longer so. */
  predicate Stale(db: Db, actor: Actor, req: Request, plan: Plan) {
    match plan
    case CreateParcelPlan(item) => db.ParcelCodeTaken(item.code)
    case UpdateParcelPlan(before, _, version) => before.id in db.parcels && db.parcels[before.id].version != version
    case ImportPlan(item) => db.ObservationCodeTaken(item.code)
    case ChangeObservationPlan(before, _, _, _) => before.id in db.observations && db.observations[before.id] != before
    case CreateProposalPlan(_) => false
    case ChangeProposalPlan(before, _, _) => before.id in db.proposals && db.proposals[before.id] != before
    case ChangeConflictPlan(before, _) => before.id in db.conflicts && db.conflicts[before.id] != before
    case ApplyPlan(before, _) => before.id in db.conflicts && db.conflicts[before.id] != before
    case DetectPlan(_, _, _, _, _) => req.DetectConflicts? && db.RunKeyTaken(actor.id, req.key)
  }

  /** A transaction of any reachable call fails exactly when its request is unidentified or its snapshot is stale. */
  lemma TransactionsFailExactlyWhen(lib: Library, moves: seq<Move>, i: nat)
    requires i < |Run(lib, moves).calls| && Run(lib, moves).calls[i].progress.Ready?
    ensures var s := Run(lib, moves); var call := s.calls[i];
      Commit(s.db, call.actor, call.req, call.progress.plan).None? <==>
        call.actor.requestID == "" || Stale(s.db, call.actor, call.req, call.progress.plan)
  {
    hide Run, Sound, Commit, PlanSound, Stale;
    EveryRunIsSound(lib, moves);
    var s := Run(lib, moves);
    var call := s.calls[i];
    ReadyOrAnswered(lib, s.db, call.actor, call.req, call.progress);
    assert call == Call(call.actor, call.req, call.progress);
    CommitFailsExactlyWhen(lib, s.db, call.actor, call.req, call.progress.plan);
  }

  /** The operations whose failed transaction is reported as an internal error rather than a conflict. */
  predicate ToldAsInternal(plan: Plan) {
    plan.UpdateParcelPlan? || plan.ImportPlan? || plan.ApplyPlan?
  }

  /**
    A stale or duplicate change is promised a conflict. An identified call that is stale gets one if and
    only if it is not a parcel update, an import or an application; a stale detection goes to the run that won.
   */
  lemma StaleCallsAreTold(lib: Library, moves: seq<Move>, i: nat)
    requires i < |Run(lib, moves).calls| && Run(lib, moves).calls[i].progress.Ready?
    requires var s := Run(lib, moves); var call := s.calls[i];
      call.actor.requestID != "" && Stale(s.db, call.actor, call.req, call.progress.plan)
    ensures var s := Run(lib, moves); var call := s.calls[i];
      var (d, p) := Advance(lib, s.db, call.actor, call.req, call.progress);
      && d == s.db
      && (if call.progress.plan.DetectPlan? then p == TransactionFailed(call.progress.plan.requestHash)
          else p == Answered(Failed(if ToldAsInternal(call.progress.plan) then Internal else StateConflict)))
  {
    hide Run, Commit, Confirmation, Advance;
    var s := Run(lib, moves);
    var call := s.calls[i];
    TransactionsFailExactlyWhen(lib, moves, i);
    CommitStep(lib, s.db, call.actor, call.req, call.progress.plan);
  }

  lemma CommitFailsExactlyWhen(lib: Library, db: Db, actor: Actor, req: Request, plan: Plan)
    requires Sound(lib, db) && PlanSound(lib, db, actor, req, plan)
    ensures Commit(db, actor, req, plan).None? <==> actor.requestID == "" || Stale(db, actor, req, plan)
  {
    hide Sound, Replay, DraftSound, BoundarySound, SeenParcel, SeenConflict, SameDraft, DetectionsFit, HashAgrees, Db.RunKeyTaken,
      Db.ParcelCodeTaken, Db.ObservationCodeTaken, CanTransitionObservation, CanProposalTransition, CanConflictTransition, MayMoveProposal,
      AddParcel, ReplaceParcel, AddObservation, ChangeObservation, AddProposal, ChangeProposal, ChangeConflict, Apply, Detect;
    match plan
    case CreateParcelPlan(item) => CreationFails(db, actor, item);
    case UpdateParcelPlan(before, after, version) =>
      SeenCode(lib, db, before);
      ParcelUpdateFails(db, actor, before, after, version);
    case ImportPlan(item) => ImportFails(db, actor, item);
    case ChangeObservationPlan(before, to, replacement, note) => ObservationChangeFails(db, actor, before, to, replacement, note);
    case CreateProposalPlan(item) => ProposalFails(db, actor, item);
    case ChangeProposalPlan(before, to, rationale) => ProposalChangeFails(db, actor, before, to, rationale);
    case ChangeConflictPlan(before, to) => ConflictChangeFails(db, actor, before, to);
    case ApplyPlan(before, derived) =>
      ConflictRow(db, before);
      ApplyFailsExactlyWhen(db, actor, before, derived);
    case DetectPlan(_, _, _, _, _) => DetectFailsExactlyWhen(db, actor, req.key, plan);
  }

  lemma CreationFails(db: Db, actor: Actor, item: Parcel)
    ensures AddParcel(db, actor, item).None? <==> actor.requestID == "" || db.ParcelCodeTaken(item.code)
  {
    hide Db.ParcelCodeTaken;
  }

  lemma ParcelUpdateFails(db: Db, actor: Actor, before: Parcel, after: Parcel, version: nat)
    ensures ReplaceParcel(db, actor, before, after, version).None? <==>
      actor.requestID == "" || after.id !in db.parcels || db.parcels[after.id].version != version
  {
  }

  lemma ImportFails(db: Db, actor: Actor, item: Observation)
    ensures AddObservation(db, actor, item).None? <==> actor.requestID == "" || db.ObservationCodeTaken(item.code)
  {
    hide Db.ObservationCodeTaken;
  }

  lemma ObservationChangeFails(db: Db, actor: Actor, before: Observation, to: ObservationState, replacement: Option<nat>, note: string)
    requires SeenObservation(db, before)
    ensures ChangeObservation(db, actor, before, to, replacement, note).None? <==> actor.requestID == "" || db.observations[before.id] != before
  {
  }

  lemma ProposalFails(db: Db, actor: Actor, item: Proposal)
    ensures AddProposal(db, actor, item, ProposalCreated).None? <==> actor.requestID == ""
  {
  }

  lemma ProposalChangeFails(db: Db, actor: Actor, before: Proposal, to: ProposalState, rationale: string)
    requires SeenProposal(db, before)
    ensures ChangeProposal(db, actor, before, to, rationale).None? <==> actor.requestID == "" || db.proposals[before.id] != before
  {
  }

  lemma ConflictChangeFails(db: Db, actor: Actor, before: Conflict, to: ConflictState)
    requires SeenConflict(db, before)
    ensures before.id in db.conflicts
    ensures ChangeConflict(db, actor, before, to).None? <==> actor.requestID == "" || db.conflicts[before.id] != before
  {
    ConflictRow(db, before);
  }

  lemma ConflictRow(db: Db, before: Conflict)
    requires SeenConflict(db, before)
    ensures before.id in db.conflicts
    ensures db.conflicts[before.id] == before <==> db.conflicts[before.id].state == before.state
  {
  }

  lemma ApplyFailsExactlyWhen(db: Db, actor: Actor, conflict: Conflict, derived: Proposal)
    ensures Apply(db, actor, conflict, derived).None? <==>
      actor.requestID == "" || conflict.id !in db.conflicts || db.conflicts[conflict.id].state != conflict.state
  {
  }

  lemma DetectFailsExactlyWhen(db: Db, actor: Actor, key: string, plan: Plan)
    requires plan.DetectPlan?
    ensures Detect(db, actor, key, plan).None? <==> actor.requestID == "" || db.RunKeyTaken(actor.id, key)
  {
    if Detect(db, actor, key, plan).None? {
      DetectFailsOnlyFor(db, actor, key, plan);
    } else {
      ConflictsInserted(db, actor, plan.parcelID, plan.detections);
      hide AddConflicts;
      assert AddConflicts(db, actor, plan.parcelID, plan.detections).value.runs == db.runs;
    }
  }

  // --- Answers -----------------------------------------------------------------------------------

  /** The row an answer reports. */
  predicate ReportsRow(db: Db, response: Response) {
    match response
    case ParcelAnswer(p) => p.id in db.parcels && db.parcels[p.id] == p
    case ObservationAnswer(o) => o.id in db.observations && db.observations[o.id] == o
    case ProposalAnswer(p) => p.id in db.proposals && db.proposals[p.id] == p
    case ConflictAnswer(c) => c.id in db.conflicts && db.conflicts[c.id] == c
    case ConflictsAnswer(items) => forall c | c in items :: c.id in db.conflicts && db.conflicts[c.id] == c
    case Failed(_) => true
  }

  /**
    Every confirmation is put together from the snapshot, yet reports the committed row exactly,
    with one exception: a proposal move that changed the rationale answers with the old one.
   */
  lemma ConfirmationsReportRows(lib: Library, moves: seq<Move>, i: nat)
    requires i < |Run(lib, moves).calls| && Run(lib, moves).calls[i].progress.Ready?
    requires var s := Run(lib, moves); var call := s.calls[i]; Commit(s.db, call.actor, call.req, call.progress.plan).Some?
    ensures var s := Run(lib, moves); var call := s.calls[i]; var plan := call.progress.plan;
      ReportsRow(Commit(s.db, call.actor, call.req, plan).value, Confirmation(s.db, call.actor, plan)) <==>
        (plan.ChangeProposalPlan? ==> plan.rationale == "" || plan.rationale == plan.proposalBefore.rationale)
  {
    hide Run, Sound, Commit, PlanSound, Confirmation, ReportsRow;
    EveryRunIsSound(lib, moves);
    var s := Run(lib, moves);
    var call := s.calls[i];
    ReadyOrAnswered(lib, s.db, call.actor, call.req, call.progress);
    assert call == Call(call.actor, call.req, call.progress);
    ConfirmationReportsRow(lib, s.db, call.actor, call.req, call.progress.plan);
  }

  lemma ConfirmationReportsRow(lib: Library, db: Db, actor: Actor, req: Request, plan: Plan)
    requires Sound(lib, db) && PlanSound(lib, db, actor, req, plan)
    requires Commit(db, actor, req, plan).Some?
    ensures ReportsRow(Commit(db, actor, req, plan).value, Confirmation(db, actor, plan)) <==>
      (plan.ChangeProposalPlan? ==> plan.rationale == "" || plan.rationale == plan.proposalBefore.rationale)
  {
    hide Sound, PlanSound, Commit, Confirmation, ReportsRow;
    if plan.CreateParcelPlan? || plan.ImportPlan? || plan.CreateProposalPlan? || plan.ApplyPlan? || plan.DetectPlan? {
      AdditionReported(lib, db, actor, req, plan);
    } else {
      ChangeReported(lib, db, actor, req, plan);
    }
  }

  lemma AdditionReported(lib: Library, db: Db, actor: Actor, req: Request, plan: Plan)
    requires plan.CreateParcelPlan? || plan.ImportPlan? || plan.CreateProposalPlan? || plan.ApplyPlan? || plan.DetectPlan?
    requires Sound(lib, db) && PlanSound(lib, db, actor, req, plan) && Commit(db, actor, req, plan).Some?
    ensures ReportsRow(Commit(db, actor, req, plan).value, Confirmation(db, actor, plan))
  {
    hide Sound, Replay, DraftSound, BoundarySound, SeenConflict, DetectionsFit, HashAgrees, Detect, Apply,
      Db.ParcelCodeTaken, Db.ObservationCodeTaken;
    match plan
    case DetectPlan(_, _, _, _, _) => KeepsDetection(lib, db, actor, req.key, plan);
    case ApplyPlan(conflict, derived) => ApplicationStored(db, actor, conflict, derived);
    case _ =>
  }

  lemma ChangeReported(lib: Library, db: Db, actor: Actor, req: Request, plan: Plan)
    requires plan.UpdateParcelPlan? || plan.ChangeObservationPlan? || plan.ChangeProposalPlan? || plan.ChangeConflictPlan?
    requires Sound(lib, db) && PlanSound(lib, db, actor, req, plan) && Commit(db, actor, req, plan).Some?
    ensures ReportsRow(Commit(db, actor, req, plan).value, Confirmation(db, actor, plan)) <==>
      (plan.ChangeProposalPlan? ==> plan.rationale == "" || plan.rationale == plan.proposalBefore.rationale)
  {
    hide Sound, Replay, BoundarySound, SeenParcel, SeenObservation, SeenProposal, SeenConflict, MayMoveProposal, CanProposalTransition;
    CommittedRow(lib, db, actor, req, plan);
    UnsettledRows(lib, db);
    RowIdentifiers(lib, db);
    if plan.UpdateParcelPlan? {
      SeenCode(lib, db, plan.parcelBefore);
    }
  }

  lemma RowIdentifiers(lib: Library, db: Db)
    requires Sound(lib, db)
    ensures forall id | id in db.parcels :: db.parcels[id].id == id
    ensures forall id | id in db.observations :: db.observations[id].id == id
    ensures forall id | id in db.proposals :: db.proposals[id].id == id
    ensures forall id | id in db.conflicts :: db.conflicts[id].id == id
  {
    hide RunsSound;
    SoundRuns(lib, db);
  }

  lemma ApplicationStored(db: Db, actor: Actor, conflict: Conflict, derived: Proposal)
    requires Apply(db, actor, conflict, derived).Some?
    ensures var d := Apply(db, actor, conflict, derived).value;
      db.next.proposal in d.proposals && d.proposals[db.next.proposal] == derived.(id := db.next.proposal)
  {
  }

  /** A parcel's code never changes. */
  lemma SeenCode(lib: Library, db: Db, p: Parcel)
    requires Sound(lib, db) && SeenParcel(db, p)
    ensures p.id in db.parcels && db.parcels[p.id].code == p.code && db.parcels[p.id].id == p.id
  {
    hide Replay, LegalLog, ProposalsSound, ConflictsSound, AppliedSound, RunsSound, ObservationsSound, BoundarySound;
    var history := Replay(db.audits).parcels[p.id];
    assert ParcelAgrees(db.parcels[p.id], history);
    assert history[p.version - 1].code == history[0].code && history[|history| - 1].code == history[0].code;
  }

  /** Only superseded observations have a replacement, and only settled conflicts a resolver. */
  lemma UnsettledRows(lib: Library, db: Db)
    requires Sound(lib, db)
    ensures forall id | id in db.observations && db.observations[id].state != Superseded :: db.observations[id].replacedBy.None?
    ensures forall id | id in db.conflicts && !Settled(db.conflicts[id].state) :: db.conflicts[id].resolvedBy.None?
  {
    hide Replay, LegalLog, ParcelsSound, ProposalsSound, AppliedSound, RunsSound, PathSound, Parsed;
  }

  // --- Applied suggestions -----------------------------------------------------------------------

  /**
    Applying a suggestion adds one draft, resolves the conflict, and rewrites no proposal, parcel or
    other conflict.
   */
  lemma ApplyingRewritesNothing(db: Db, actor: Actor, conflict: Conflict, derived: Proposal)
    requires KeysSound(db) && Apply(db, actor, conflict, derived).Some?
    ensures var d := Apply(db, actor, conflict, derived).value;
      && d.parcels == db.parcels && d.observations == db.observations && d.runs == db.runs
      && d.proposals.Keys == db.proposals.Keys + {db.next.proposal} && db.next.proposal !in db.proposals
      && (forall id | id in db.proposals :: d.proposals[id] == db.proposals[id])
      && d.proposals[db.next.proposal] == derived.(id := db.next.proposal)
      && d.conflicts.Keys == db.conflicts.Keys && conflict.id in db.conflicts
      && (forall id | id in db.conflicts && id != conflict.id :: d.conflicts[id] == db.conflicts[id])
      && d.conflicts[conflict.id] == db.conflicts[conflict.id].(state := Resolved, resolvedBy := Some(actor.id))
  {
  }

  /**
    In every reachable state, the step that commits an application touches nothing but its conflict: between
    the moments before and after it, every parcel, observation, run, proposal and other conflict is the same.
   */
  lemma ApplicationsRewriteNothing(lib: Library, moves: seq<Move>, i: nat)
    requires i < |Run(lib, moves).calls|
    requires var p := Run(lib, moves).calls[i].progress; p.Ready? && p.plan.ApplyPlan?
    ensures var db, d := Run(lib, moves).db, Run(lib, moves + [Step(i)]).db;
      var call := Run(lib, moves).calls[i];
      var c := call.progress.plan.conflictBefore;
      d == db || (
        && d.parcels == db.parcels && d.observations == db.observations && d.runs == db.runs
        && d.proposals == db.proposals[db.next.proposal := call.progress.plan.proposal.(id := db.next.proposal)]
        && db.next.proposal !in db.proposals
        && c.id in db.conflicts && db.conflicts[c.id] == c && c.state == ResolutionProposed
        && d.conflicts == db.conflicts[c.id := c.(state := Resolved, resolvedBy := Some(call.actor.id))])
  {
    hide Run, Do, Advance, Sound, PlanSound, Commit, Confirmation, CallSound;
    EveryRunIsSound(lib, moves);
    var s := Run(lib, moves);
    var call := s.calls[i];
    RunOn(lib, moves, Step(i));
    StepOfCall(lib, s, i);
    CommitStep(lib, s.db, call.actor, call.req, call.progress.plan);
    ReadyOrAnswered(lib, s.db, call.actor, call.req, call.progress);
    assert call == Call(call.actor, call.req, call.progress);
    if Commit(s.db, call.actor, call.req, call.progress.plan).Some? {
      ApplicationCommitted(lib, s.db, call.actor, call.req, call.progress.plan);
    }
  }

  lemma ApplicationCommitted(lib: Library, db: Db, actor: Actor, req: Request, plan: Plan)
    requires Sound(lib, db) && plan.ApplyPlan? && PlanSound(lib, db, actor, req, plan) && Commit(db, actor, req, plan).Some?
    ensures var d, c := Commit(db, actor, req, plan).value, plan.conflictBefore;
      && d.parcels == db.parcels && d.observations == db.observations && d.runs == db.runs
      && d.proposals == db.proposals[db.next.proposal := plan.proposal.(id := db.next.proposal)]
      && db.next.proposal !in db.proposals
      && c.id in db.conflicts && db.conflicts[c.id] == c && c.state == ResolutionProposed
      && d.conflicts == db.conflicts[c.id := c.(state := Resolved, resolvedBy := Some(actor.id))]
  {
    hide Sound, PlanSound, Apply;
    CommittedRow(lib, db, actor, req, plan);
    SoundRuns(lib, db);
    AppliedFrom(lib, db, actor, req, plan);
    ApplyingRewritesNothing(db, actor, plan.conflictBefore, plan.proposal);
  }

  lemma AppliedFrom(lib: Library, db: Db, actor: Actor, req: Request, plan: Plan)
    requires plan.ApplyPlan? && PlanSound(lib, db, actor, req, plan)
    ensures plan.conflictBefore.state == ResolutionProposed
  {
    hide SeenConflict, DraftSound;
  }

  /** Between any two moments of a run, no proposal's parcel, base version, geometry, citations, tolerance, area delta or author changes. */
  lemma DraftsNeverChange(lib: Library, moves: seq<Move>, n: nat, id: nat)
    requires n <= |moves| && id in Run(lib, moves[..n]).db.proposals
    ensures id in Run(lib, moves).db.proposals
    ensures SameDraft(Run(lib, moves[..n]).db.proposals[id], Run(lib, moves).db.proposals[id])
  {
    hide Run, SameDraft, Replay;
    RunsOnlyEvolve(lib, moves, n);
  }
}
