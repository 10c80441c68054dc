/**
  What each operation does when nothing interrupts it, in full: which errors come first, exactly when
  it succeeds, the whole row it leaves, what it answers, and the log entries it adds. Guards are written
  out; nothing here is said through the code's own predicates.
 */
module Outcomes {
  import opened Options
  import opened Boundaries
  import opened Lifecycles
  import opened Records
  import opened AuditTrail
  import opened Invariants
  import opened Requests
  import opened Calls
  import opened Transactions
  import opened Interleaving
  import opened Idempotence
  import opened Histories
  import opened Analyses
  import opened Staleness
  import opened Services
  import Hashing

  predicate Identified(actor: Actor) {
    actor.requestID != ""
  }

  // --- Parcels ----------------------------------------------------------------------------

  lemma ParcelCreationOutcome(lib: Library, db: Db, actor: Actor, req: Request)
    requires req.CreateParcel?
    ensures var (d, response) := Serve(lib, db, actor, req, Started);
      if !lib.systemAllowed(req.coordinateSystem) || Parsed(lib, req.boundary).None? then d == db && response == Failed(Unprocessable)
      else if exists id :: id in db.parcels && db.parcels[id].code == req.code then d == db && response == Failed(StateConflict)
      else if !Identified(actor) then d == db && response == Failed(Internal)
      else
        var n := db.next.parcel;
        var row := Parcel(n, req.code, req.name, req.boundary, req.coordinateSystem, AreaOf(lib, req.boundary), 1, req.owner,
                          if req.state == "" then "active" else req.state);
        && response == ParcelAnswer(row)
        && d == db.(parcels := db.parcels[n := row], next := db.next.(parcel := n + 1),
                    audits := db.audits + [Entry(actor.id, actor.name, actor.requestID, ParcelCreated, n, Some(n), Nothing, OfParcel(row))])
  {
    hide Serve, Parsed, AreaOf;
    ServedAtOnce(lib, db, actor, req);
  }

  /** The row an update leaves: each field the requested value if one is given, the area that of the boundary. */
  function Replacement(lib: Library, row: Parcel, req: Request): Parcel
    requires req.UpdateParcel?
  {
    Parcel(row.id, row.code,
           if req.newName.Some? then req.newName.value else row.name,
           if req.newBoundary.Some? then req.newBoundary.value else row.boundary,
           if req.newSystem.Some? then req.newSystem.value else row.coordinateSystem,
           if req.newBoundary.Some? then AreaOf(lib, req.newBoundary.value) else row.area,
           row.version + 1,
           if req.newOwner.Some? then req.newOwner.value else row.owner,
           if req.newState.Some? then req.newState.value else row.state)
  }

  /** A stale version is an internal error, not a conflict. */
  lemma UpdateOutcome(lib: Library, db: Db, actor: Actor, req: Request)
    requires req.UpdateParcel? && (req.id in db.parcels ==> db.parcels[req.id].id == req.id)
    ensures var (d, response) := Serve(lib, db, actor, req, Started);
      if req.id !in db.parcels then d == db && response == Failed(NotFound)
      else
        var row := db.parcels[req.id];
        if (req.newSystem.Some? && !lib.systemAllowed(req.newSystem.value))
           || (req.newBoundary.Some? && Parsed(lib, req.newBoundary.value).None?)
        then d == db && response == Failed(Unprocessable)
        else if (req.newVersion.Some? && req.newVersion.value != row.version) || !Identified(actor) then d == db && response == Failed(Internal)
        else
          var after := Replacement(lib, row, req);
          && response == ParcelAnswer(after)
          && d == db.(parcels := db.parcels[req.id := after],
                      audits := db.audits + [Entry(actor.id, actor.name, actor.requestID, ParcelUpdated, req.id, Some(req.id),
                                                   OfParcel(row), OfParcel(after.(version := row.version)))])
  {
    hide Serve, Parsed, AreaOf, Updated, Replacement, Commit, Confirmation;
    ServedAtOnce(lib, db, actor, req);
    if req.id in db.parcels {
      var row := db.parcels[req.id];
      UpdatedExactly(lib, row, req);
      if Updated(lib, row, req).Some? {
        UpdateStored(lib, db, actor, req, row);
      }
    }
  }

  lemma UpdatedExactly(lib: Library, row: Parcel, req: Request)
    requires req.UpdateParcel?
    ensures Updated(lib, row, req).None? <==>
      || (req.newSystem.Some? && !lib.systemAllowed(req.newSystem.value))
      || (req.newBoundary.Some? && Parsed(lib, req.newBoundary.value).None?)
    ensures Updated(lib, row, req).Some? ==> Updated(lib, row, req).value == Replacement(lib, row, req).(version := row.version)
  {
    hide Parsed, AreaOf;
  }

  lemma UpdateStored(lib: Library, db: Db, actor: Actor, req: Request, row: Parcel)
    requires req.UpdateParcel? && req.id in db.parcels && db.parcels[req.id] == row && row.id == req.id
    ensures var after := Replacement(lib, row, req);
      var version := if req.newVersion.Some? then req.newVersion.value else row.version;
      var plan := UpdateParcelPlan(row, after.(version := row.version), version);
      if version != row.version || !Identified(actor) then Commit(db, actor, req, plan).None?
      else
        && Confirmation(db, actor, plan) == ParcelAnswer(after)
        && Commit(db, actor, req, plan) ==
             Some(db.(parcels := db.parcels[req.id := after],
                      audits := db.audits + [Entry(actor.id, actor.name, actor.requestID, ParcelUpdated, req.id, Some(req.id),
                                                   OfParcel(row), OfParcel(after.(version := row.version)))]))
  {
    hide AreaOf;
  }

  /** After any run, the area an update leaves is that of the boundary it leaves. */
  lemma ReplacementArea(lib: Library, moves: seq<Move>, req: Request)
    requires req.UpdateParcel? && req.id in Run(lib, moves).db.parcels
    ensures var after := Replacement(lib, Run(lib, moves).db.parcels[req.id], req); after.area == AreaOf(lib, after.boundary)
  {
    hide Run, Parsed, AreaOf;
    AreasAreExact(lib, moves, req.id);
  }

  // --- Observations ------------------------------------------------------------------------

  lemma ImportOutcome(lib: Library, db: Db, actor: Actor, req: Request)
    requires req.ImportObservation?
    ensures var (d, response) := Serve(lib, db, actor, req, Started);
      if req.parcelID !in db.parcels then d == db && response == Failed(NotFound)
      else if !lib.isPoint(req.point) then d == db && response == Failed(Unprocessable)
      else if (exists id :: id in db.observations && db.observations[id].code == req.code) || !Identified(actor)
      then d == db && response == Failed(Internal)
      else
        var n := db.next.observation;
        var row := Observation(n, req.parcelID, req.code, req.point, req.evidence,
                               if req.observationState.Some? then req.observationState.value else Usable, 1, None, req.note, actor.id);
        && response == ObservationAnswer(row)
        && d == db.(observations := db.observations[n := row], next := db.next.(observation := n + 1),
                    audits := db.audits + [Entry(actor.id, actor.name, actor.requestID, ObservationImported, n, Some(req.parcelID),
                                                 Nothing, OfObservation(row))])
  {
    hide Serve;
    ServedAtOnce(lib, db, actor, req);
  }

  /** The guards of an observation's move, in the order they are tried; None when all hold. */
  function ObservationRefusal(db: Db, actor: Actor, req: Request): Option<ErrorKind>
    requires req.TransitionObservation?
  {
    if req.id !in db.observations then Some(NotFound)
    else
      var row, to := db.observations[req.id], req.toObservation;
      if row.version != req.version then Some(StateConflict)
      else if !((row.state == Usable && to == Discarded) || (row.state == Usable && to == Superseded) || (row.state == Discarded && to == Usable))
      then Some(StateConflict)
      else if actor.role != Surveyor && actor.role != GISAnalyst && actor.role != Admin then Some(Forbidden)
      else if to != Superseded then
        if req.replacement.Some? then Some(InvalidInput) else None
      else if req.replacement.None? || req.replacement.value == req.id then Some(InvalidInput)
      else if req.replacement.value !in db.observations then Some(NotFound)
      else if db.observations[req.replacement.value].parcelID != row.parcelID || db.observations[req.replacement.value].state == Superseded
      then Some(StateConflict)
      else None
  }

  lemma ObservationMoveOutcome(lib: Library, db: Db, actor: Actor, req: Request)
    requires req.TransitionObservation? && (req.id in db.observations ==> db.observations[req.id].id == req.id)
    ensures var (d, response) := Serve(lib, db, actor, req, Started);
      if ObservationRefusal(db, actor, req).Some? then d == db && response == Failed(ObservationRefusal(db, actor, req).value)
      else if !Identified(actor) then d == db && response == Failed(StateConflict)
      else
        var row := db.observations[req.id];
        var after := Observation(row.id, row.parcelID, row.code, row.point, row.evidence, req.toObservation, row.version + 1,
                                 if req.replacement.Some? then req.replacement else row.replacedBy, if req.note == "" then row.note else req.note, row.importedBy);
        && response == ObservationAnswer(after.(replacedBy := req.replacement))
        && d == db.(observations := db.observations[req.id := after],
                    audits := db.audits + [Entry(actor.id, actor.name, actor.requestID, ObservationStateChanged, req.id, Some(row.parcelID),
                                                 OfObservation(row), ObservationMove(req.toObservation, row.version + 1, req.replacement, req.note))])
  {
    hide Serve;
    ServedAtOnce(lib, db, actor, req);
    var p := Start(lib, db, actor, req);
    if p.ObservationRead? {
      SupersessionServed(lib, db, actor, req, p.observation);
    }
  }

  // --- Proposals ----------------------------------------------------------------------------

  predicate CitedFit(db: Db, req: Request, from: nat)
    requires req.CreateProposal?
  {
    forall i | from <= i < |req.observationIDs| ::
      req.observationIDs[i] in db.observations && db.observations[req.observationIDs[i]].parcelID == req.parcelID
  }

  /** A new draft and its entry. */
  predicate Drafted(db: Db, actor: Actor, row: Proposal, d: Db, response: Response) {
    && response == ProposalAnswer(row)
    && d == db.(proposals := db.proposals[row.id := row], next := db.next.(proposal := row.id + 1),
                audits := db.audits + [Entry(actor.id, actor.name, actor.requestID, ProposalCreated, row.id, Some(row.parcelID),
                                             Nothing, OfProposal(row))])
  }

  function NewDraft(lib: Library, db: Db, actor: Actor, req: Request, parcel: Parcel): Proposal
    requires req.CreateProposal?
  {
    Proposal(db.next.proposal, req.parcelID, req.baseVersion, req.geometry, req.observationIDs, req.tolerance,
             AreaOf(lib, req.geometry) - parcel.area, Draft, req.rationale, 1, actor.id, None)
  }

  lemma {:induction false} CitedOutcome(lib: Library, db: Db, actor: Actor, req: Request, parcel: Parcel, i: nat)
    requires Fits(lib, req, ParcelRead(parcel, i))
    ensures req.CreateProposal?
    ensures var (d, response) := Serve(lib, db, actor, req, ParcelRead(parcel, i));
      if !CitedFit(db, req, i) then d == db && response == Failed(InvalidInput)
      else if !Identified(actor) then d == db && response == Failed(Internal)
      else Drafted(db, actor, NewDraft(lib, db, actor, req, parcel), d, response)
    decreases |req.observationIDs| - i
  {
    hide Serve, Parsed, AreaOf;
    CitedServed(lib, db, actor, req, parcel, i);
    if CheckCited(lib, db, actor, req, parcel, i).ParcelRead? {
      CitedOutcome(lib, db, actor, req, parcel, i + 1);
    }
  }

  lemma ProposalCreationOutcome(lib: Library, db: Db, actor: Actor, req: Request)
    requires req.CreateProposal?
    ensures var (d, response) := Serve(lib, db, actor, req, Started);
      if req.parcelID !in db.parcels then d == db && response == Failed(NotFound)
      else if db.parcels[req.parcelID].version != req.baseVersion then d == db && response == Failed(StateConflict)
      else if Parsed(lib, req.geometry).None? then d == db && response == Failed(Unprocessable)
      else if !CitedFit(db, req, 0) then d == db && response == Failed(InvalidInput)
      else if !Identified(actor) then d == db && response == Failed(Internal)
      else Drafted(db, actor, NewDraft(lib, db, actor, req, db.parcels[req.parcelID]), d, response)
  {
    hide Serve, Parsed, AreaOf, CitedFit, Drafted;
    ServedAtOnce(lib, db, actor, req);
    var p := Start(lib, db, actor, req);
    if p.ParcelRead? {
      FirstServed(lib, db, actor, req, p.parcel);
      CitedOutcome(lib, db, actor, req, p.parcel, 0);
    }
  }

  /** The targets only a reviewer or an administrator other than the author may choose; the rest is for the author or an administrator. */
  predicate IsReview(to: ProposalState) {
    to == Reviewed || to == Accepted || to == Rejected || to == Revision
  }

  /** The answer shows the old rationale whatever was requested, and a stale version in the request is no obstacle. */
  lemma ProposalMoveOutcome(lib: Library, db: Db, actor: Actor, req: Request)
    requires req.TransitionProposal? && (req.id in db.proposals ==> db.proposals[req.id].id == req.id)
    ensures var (d, response) := Serve(lib, db, actor, req, Started);
      if req.id !in db.proposals then d == db && response == Failed(NotFound)
      else
        var row, to := db.proposals[req.id], req.toProposal;
        if !((row.state == Draft && to == Validated) || (row.state == Validated && to == Submitted) || (row.state == Submitted && to == Reviewed)
             || (row.state == Reviewed && (to == Accepted || to == Rejected || to == Revision)) || (row.state == Revision && to == Draft))
        then d == db && response == Failed(StateConflict)
        else if IsReview(to) && !((actor.role == Reviewer || actor.role == Admin) && actor.id != row.createdBy)
        then d == db && response == Failed(Forbidden)
        else if !IsReview(to) && !(actor.id == row.createdBy || actor.role == Admin) then d == db && response == Failed(Forbidden)
        else if !Identified(actor) then d == db && response == Failed(StateConflict)
        else
          var after := Proposal(row.id, row.parcelID, row.baseVersion, row.geometry, row.observationIDs, row.tolerance, row.areaDelta, to,
                                if req.rationale == "" then row.rationale else req.rationale, row.version + 1, row.createdBy,
                                if IsReview(to) then Some(actor.id) else row.reviewedBy);
          && response == ProposalAnswer(after.(rationale := row.rationale))
          && d == db.(proposals := db.proposals[req.id := after],
                      audits := db.audits + [Entry(actor.id, actor.name, actor.requestID, ProposalStateChanged, req.id, Some(row.parcelID),
                                                   OfProposal(row), ProposalMove(to, row.version + 1))])
  {
    hide Serve, CanProposalTransition, MayMoveProposal, Commit, Confirmation;
    ServedAtOnce(lib, db, actor, req);
    if req.id in db.proposals {
      var row := db.proposals[req.id];
      TableWrittenOut(row.state, req.toProposal);
      RolesWrittenOut(row.createdBy, req.toProposal, actor);
      if CanProposalTransition(row.state, req.toProposal) && MayMoveProposal(row.createdBy, req.toProposal, actor.id, actor.role) {
        ProposalMoveStored(db, actor, req, row);
      }
    }
  }

  lemma TableWrittenOut(from: ProposalState, to: ProposalState)
    ensures CanProposalTransition(from, to) <==>
      || (from == Draft && to == Validated) || (from == Validated && to == Submitted) || (from == Submitted && to == Reviewed)
      || (from == Reviewed && (to == Accepted || to == Rejected || to == Revision)) || (from == Revision && to == Draft)
  {
  }

  lemma RolesWrittenOut(author: nat, to: ProposalState, actor: Actor)
    ensures IsReview(to) ==>
      (MayMoveProposal(author, to, actor.id, actor.role) <==> (actor.role == Reviewer || actor.role == Admin) && actor.id != author)
    ensures to == Draft || to == Validated || to == Submitted ==>
      (MayMoveProposal(author, to, actor.id, actor.role) <==> actor.id == author || actor.role == Admin)
  {
  }

  lemma ProposalMoveStored(db: Db, actor: Actor, req: Request, row: Proposal)
    requires req.TransitionProposal? && req.id in db.proposals && db.proposals[req.id] == row && row.id == req.id
    ensures var plan, to := ChangeProposalPlan(row, req.toProposal, req.rationale), req.toProposal;
      var after := Proposal(row.id, row.parcelID, row.baseVersion, row.geometry, row.observationIDs, row.tolerance, row.areaDelta, to,
                            if req.rationale == "" then row.rationale else req.rationale, row.version + 1, row.createdBy,
                            if IsReview(to) then Some(actor.id) else row.reviewedBy);
      if !Identified(actor) then Commit(db, actor, req, plan).None?
      else
        && Confirmation(db, actor, plan) == ProposalAnswer(after.(rationale := row.rationale))
        && Commit(db, actor, req, plan) ==
             Some(db.(proposals := db.proposals[req.id := after],
                      audits := db.audits + [Entry(actor.id, actor.name, actor.requestID, ProposalStateChanged, req.id, Some(row.parcelID),
                                                   OfProposal(row), ProposalMove(to, row.version + 1))]))
  {
  }

  // --- Conflicts -----------------------------------------------------------------------------

  lemma ConflictMoveOutcome(lib: Library, db: Db, actor: Actor, req: Request)
    requires req.TransitionConflict? && (req.id in db.conflicts ==> db.conflicts[req.id].id == req.id)
    ensures var (d, response) := Serve(lib, db, actor, req, Started);
      if req.id !in db.conflicts then d == db && response == Failed(NotFound)
      else
        var row, to := db.conflicts[req.id], req.toConflict;
        if !((row.state == Detected && (to == Confirmed || to == FalsePositive)) || (row.state == Confirmed && to == ResolutionProposed)
             || (row.state == FalsePositive && to == Closed) || (row.state == ResolutionProposed && to == Resolved)
             || (row.state == Resolved && to == Closed))
           || !Identified(actor)
        then d == db && response == Failed(StateConflict)
        else
          var after := Conflict(row.id, row.detection, to, if to == Resolved || to == Closed then Some(actor.id) else row.resolvedBy);
          && response == ConflictAnswer(after.(resolvedBy := if to == Resolved || to == Closed then Some(actor.id) else None))
          && d == db.(conflicts := db.conflicts[req.id := after],
                      audits := db.audits + [Entry(actor.id, actor.name, actor.requestID, ConflictStateChanged, req.id, None,
                                                   OfConflict(row), ConflictMove(to))])
  {
    hide Serve;
    ServedAtOnce(lib, db, actor, req);
  }

  /** The draft an applied suggestion becomes, on the parcel as it is now, at the version after its source's. */
  function DerivedRow(lib: Library, db: Db, actor: Actor, conflict: Conflict, source: Proposal, parcel: Parcel, rationale: string): Proposal {
    Proposal(db.next.proposal, source.parcelID, parcel.version, conflict.detection.suggestion.snapped, source.observationIDs, source.tolerance,
             AreaOf(lib, conflict.detection.suggestion.snapped) - parcel.area, Draft,
             if rationale == "" then "Applied deterministic suggestion from topology conflict " + Hashing.Decimal(conflict.id) + "." else rationale,
             source.version + 1, actor.id, None)
  }

  /** One draft more, one conflict resolved, and an entry for each; nothing else. */
  predicate AppliedTo(db: Db, actor: Actor, conflict: Conflict, draft: Proposal, d: Db, response: Response) {
    && response == ProposalAnswer(draft)
    && d == db.(proposals := db.proposals[draft.id := draft], next := db.next.(proposal := draft.id + 1),
                conflicts := db.conflicts[conflict.id := Conflict(conflict.id, conflict.detection, Resolved, Some(actor.id))],
                audits := db.audits
                  + [Entry(actor.id, actor.name, actor.requestID, ProposalCreatedFromConflict, draft.id, Some(draft.parcelID), Nothing, OfProposal(draft))]
                  + [Entry(actor.id, actor.name, actor.requestID, ConflictSuggestionApplied, conflict.id, Some(draft.id), OfConflict(conflict),
                           SuggestionMove(Resolved, draft.id))])
  }

  /** On a sound database the source and its parcel are there, so only the role, the state and the geometry decide. */
  lemma ApplicationOutcome(lib: Library, db: Db, actor: Actor, req: Request)
    requires Sound(lib, db) && req.ApplySuggestion?
    ensures var (d, response) := Serve(lib, db, actor, req, Started);
      if actor.role != Reviewer && actor.role != Admin then d == db && response == Failed(Forbidden)
      else if req.id !in db.conflicts then d == db && response == Failed(NotFound)
      else
        var row := db.conflicts[req.id];
        if row.state != ResolutionProposed then d == db && response == Failed(StateConflict)
        else if Parsed(lib, row.detection.suggestion.snapped).None? || !Identified(actor) then d == db && response == Failed(Internal)
        else
          && row.detection.proposalID in db.proposals
          && var source := db.proposals[row.detection.proposalID];
             && source.parcelID in db.parcels
             && AppliedTo(db, actor, row, DerivedRow(lib, db, actor, row, source, db.parcels[source.parcelID], req.rationale), d, response)
  {
    hide Sound, Serve, Parsed, AreaOf, Derive, Concluded, AppliedTo, DerivedRow;
    ServedAtOnce(lib, db, actor, req);
    var p := Start(lib, db, actor, req);
    if p.ConflictRead? {
      SourceServed(lib, db, actor, req, p.conflict);
      SourcesAreStored(lib, db, req.id);
      var q := LoadSource(lib, db, p.conflict);
      if q.SourceRead? {
        DerivedOutcome(lib, db, actor, req, p.conflict, q.proposal);
      } else {
        FailureConcluded(db, actor, req, q);
      }
    } else {
      FailureConcluded(db, actor, req, p);
    }
  }

  lemma FailureConcluded(db: Db, actor: Actor, req: Request, p: Progress)
    requires NearlyDone(p)
    ensures p.Answered? ==> Concluded(db, actor, req, p) == (db, p.response)
  {
  }

  lemma DerivedOutcome(lib: Library, db: Db, actor: Actor, req: Request, conflict: Conflict, source: Proposal)
    requires Fits(lib, req, SourceRead(conflict, source)) && source.parcelID in db.parcels
    requires conflict.id in db.conflicts && db.conflicts[conflict.id] == conflict && conflict.state == ResolutionProposed
    ensures req.ApplySuggestion?
    ensures var (d, response) := Serve(lib, db, actor, req, SourceRead(conflict, source));
      if !Identified(actor) then d == db && response == Failed(Internal)
      else AppliedTo(db, actor, conflict, DerivedRow(lib, db, actor, conflict, source, db.parcels[source.parcelID], req.rationale), d, response)
  {
    hide Serve, Parsed, AreaOf, Hashing.Decimal, Apply, AppliedTo;
    DerivationServed(lib, db, actor, req, conflict, source);
    var plan := Derive(lib, db, actor, conflict, source, req.rationale).plan;
    ApplyFailsExactlyWhen(db, actor, conflict, plan.proposal);
    if Identified(actor) {
      ApplicationStores(db, actor, conflict, plan.proposal);
    }
  }

  lemma ApplicationStores(db: Db, actor: Actor, conflict: Conflict, derived: Proposal)
    requires conflict.id in db.conflicts && db.conflicts[conflict.id] == conflict && Apply(db, actor, conflict, derived).Some?
    ensures var draft := derived.(id := db.next.proposal);
      AppliedTo(db, actor, conflict, draft, Apply(db, actor, conflict, derived).value, ProposalAnswer(draft))
  {
  }

  lemma SourcesAreStored(lib: Library, db: Db, c: nat)
    requires Sound(lib, db) && c in db.conflicts
    ensures db.conflicts[c].id == c && db.conflicts[c].detection.proposalID in db.proposals
    ensures db.proposals[db.conflicts[c].detection.proposalID].parcelID in db.parcels
  {
    hide Sound, Parsed, AreaOf, PathSound, LegalLog, Replay, AppliedSound, ParcelsSound, ReviewSound, RunsSound;
    SoundLedger(lib, db);
    SoundRuns(lib, db);
    assert ConflictSound(lib, db, db.conflicts[c], Replay(db.audits).conflicts[c]);
    assert DraftSound(lib, Replay(db.audits), db.proposals[db.conflicts[c].detection.proposalID]);
  }

  // --- Detection ------------------------------------------------------------------------------------

  function ToleranceFor(req: Request, proposal: Proposal): real
    requires req.DetectConflicts?
  {
    if req.tolerance == 0.0 then proposal.tolerance else req.tolerance
  }

  /** The request hash covers the proposal's identifier and the tolerance in six decimals. */
  function RequestHashFor(lib: Library, req: Request, proposal: Proposal): string
    requires req.DetectConflicts?
  {
    Hashing.Hash([Hashing.Decimal(req.proposalID), lib.toleranceText(ToleranceFor(req, proposal))])
  }

  lemma RequestHashIs(lib: Library, req: Request, proposal: Proposal)
    requires req.DetectConflicts?
    ensures RequestHashOf(lib, req, proposal) == RequestHashFor(lib, req, proposal)
  {
  }

  lemma DetectionRefused(lib: Library, db: Db, actor: Actor, req: Request)
    requires req.DetectConflicts?
    ensures |req.key| < 1 || |req.key| > 128 ==> Serve(lib, db, actor, req, Started) == (db, Failed(InvalidInput))
    ensures 1 <= |req.key| <= 128 && req.proposalID !in db.proposals ==> Serve(lib, db, actor, req, Started) == (db, Failed(NotFound))
  {
    hide Serve;
    ServedAtOnce(lib, db, actor, req);
  }

  /** A key that is taken: the run's conflicts as they are now when the request is the same, else a conflict. */
  lemma TakenKeyOutcome(lib: Library, db: Db, actor: Actor, req: Request, r: nat)
    requires Sound(lib, db) && req.DetectConflicts? && 1 <= |req.key| <= 128 && req.proposalID in db.proposals
    requires r in db.runs && db.runs[r].actorID == actor.id && db.runs[r].key == req.key
    ensures var (d, response) := Serve(lib, db, actor, req, Started);
      && d == db
      && if db.runs[r].requestHash == RequestHashFor(lib, req, db.proposals[req.proposalID])
         then response.ConflictsAnswer? && AreRows(db, db.runs[r].resultIDs, response.conflicts)
         else response == Failed(StateConflict)
  {
    hide Sound, Serve, Db.RunFor, Db.ConflictsByID, RequestHashOf, RequestHashFor, Db.RunKeyTaken, AreRows;
    TheOnlyRun(lib, db, r);
    CurrentRows(lib, db, db.runs[r]);
    TakenKeyAnswers(lib, db, actor, req);
    RequestHashIs(lib, req, db.proposals[req.proposalID]);
  }

  lemma TheOnlyRun(lib: Library, db: Db, r: nat)
    requires Sound(lib, db) && r in db.runs
    ensures db.RunKeyTaken(db.runs[r].actorID, db.runs[r].key)
    ensures db.RunFor(db.runs[r].actorID, db.runs[r].key) == Some(db.runs[r]) && db.runs[r].id == r
  {
    hide Sound, Db.RunFor, InSomeRun, RunSound;
    SoundRuns(lib, db);
    StoredRun(lib, db, db.runs[r].actorID, db.runs[r].key);
  }

  /** The rows with these identifiers, in this order. */
  predicate AreRows(db: Db, ids: seq<nat>, rows: seq<Conflict>) {
    |rows| == |ids| && forall k | 0 <= k < |ids| :: ids[k] in db.conflicts && rows[k] == db.conflicts[ids[k]]
  }

  lemma CurrentRows(lib: Library, db: Db, run: DetectionRun)
    requires Sound(lib, db) && run.id in db.runs && db.runs[run.id] == run
    ensures db.ConflictsByID(run.resultIDs).Some? && AreRows(db, run.resultIDs, db.ConflictsByID(run.resultIDs).value)
  {
    hide Sound, Db.ConflictsByID;
    RunResultsStored(lib, db, run);
    ConflictsByIDListed(db, run.resultIDs);
  }

  /** The conflicts of a stored detection: one row for each, under consecutive identifiers, and no other change to the tables. */
  ghost predicate ConflictsStored(db: Db, ds: seq<Detection>, d: Db, response: Response) {
    var first, m := db.next.conflict, |ds|;
    && response.ConflictsAnswer? && |response.conflicts| == m
    && (forall k | 0 <= k < m :: response.conflicts[k] == Conflict(first + k, ds[k], Detected, None))
    && d.parcels == db.parcels && d.observations == db.observations && d.proposals == db.proposals
    && d.next == db.next.(conflict := first + m, run := db.next.run + 1)
    && (forall id :: id in d.conflicts <==> id in db.conflicts || first <= id < first + m)
    && (forall id | id in db.conflicts && id < first :: d.conflicts[id] == db.conflicts[id])
    && (forall c | c in response.conflicts :: c.id in d.conflicts && d.conflicts[c.id] == c)
  }

  /** The rows and entries of a stored detection: its conflicts in order, then the run that lists them. */
  ghost predicate DetectionStored(db: Db, actor: Actor, key: string, proposalID: nat, parcelID: nat, ds: seq<Detection>,
                                  requestHash: string, inputHash: string, d: Db, response: Response)
  {
    && ConflictsStored(db, ds, d, response)
    && (exists ids: seq<nat> ::
          && |ids| == |ds| && (forall k | 0 <= k < |ds| :: ids[k] == db.next.conflict + k)
          && var run := DetectionRun(db.next.run, proposalID, actor.id, key, requestHash, inputHash, ids);
             && d.runs == db.runs[run.id := run]
             && d.audits == db.audits + ConflictEntries(actor, parcelID, db.next.conflict, ds)
                  + [Entry(actor.id, actor.name, actor.requestID, DetectionCompleted, run.id, Some(proposalID), Nothing, OfRun(run))])
  }

  /** What a detection with a free key comes to, given the neighbours it reads. */
  ghost predicate FreshOutcome(lib: Library, db: Db, actor: Actor, req: Request, proposal: Proposal, parcel: Parcel, ns: seq<Parcel>,
                               d: Db, response: Response)
    requires req.DetectConflicts? && Geometric(lib, proposal, parcel) && AllParse(lib, ns)
  {
    var t := ToleranceFor(req, proposal);
    var snap := SnapMade(lib, proposal, parcel, ns, t);
    if snap.None? then d == db && response == Failed(Unprocessable)
    else
      var report := ReportMade(lib, parcel, ns, snap.value.polygon, t);
      if report.None? || !Identified(actor) then d == db && response == Failed(Internal)
      else
        var suggestion := Suggestion(snap.value.encoded, snap.value.changes, t, parcel.coordinateSystem, HashMade(lib, proposal, parcel, ns, t));
        exists ds ::
          && DescribesAll(ds, report.value, proposal, parcel, suggestion, req.now)
          && DetectionStored(db, actor, req.key, req.proposalID, parcel.id, ds, RequestHashFor(lib, req, proposal), suggestion.inputHash, d, response)
  }

  /**
    A key that is free: the proposal is snapped against its parcel and all its neighbours, the snapped polygon is
    reported on, and the findings are stored; the errors are a snap that fails, an overlay that fails, and an
    unidentified request.
   */
  lemma FreshKeyOutcome(lib: Library, db: Db, actor: Actor, req: Request, proposal: Proposal) returns (parcel: Parcel, ns: seq<Parcel>)
    requires Sound(lib, db) && req.DetectConflicts? && 1 <= |req.key| <= 128
    requires req.proposalID in db.proposals && db.proposals[req.proposalID] == proposal
    requires forall r | r in db.runs :: !(db.runs[r].actorID == actor.id && db.runs[r].key == req.key)
    ensures proposal.parcelID in db.parcels && parcel == db.parcels[proposal.parcelID] && ListsNeighbours(db, parcel, ns)
    ensures Geometric(lib, proposal, parcel) && AllParse(lib, ns)
    ensures var (d, response) := Serve(lib, db, actor, req, Started); FreshOutcome(lib, db, actor, req, proposal, parcel, ns, d, response)
  {
    hide Sound, Serve, Parsed, Db.RunFor, RequestHashOf, SeenProposal, FreshOutcome, AnalysedAndStored, Db.ActiveNeighbours, Db.RunKeyTaken,
      ListsNeighbours, AllParse;
    StoredProposal(lib, db, req.proposalID);
    StoredDraftParses(lib, db, proposal);
    parcel := db.parcels[proposal.parcelID];
    ns := db.ActiveNeighbours(parcel.coordinateSystem, parcel.id);
    ReadNeighbours(lib, db, parcel);
    KeyIsFree(lib, db, actor.id, req.key);
    LookUpServed(lib, db, actor, req, proposal);
    AnalysisServed(lib, db, actor, req, proposal, parcel);
    FreshAnalysis(lib, db, actor, req, proposal, parcel);
  }

  lemma StoredProposal(lib: Library, db: Db, id: nat)
    requires Sound(lib, db) && id in db.proposals
    ensures SeenProposal(db, db.proposals[id]) && db.proposals[id].id == id
  {
    hide Sound, SeenProposal, SeenParcel, SeenConflict, SeenObservation, BoundarySound;
    RowsAreSeen(lib, db);
  }

  lemma ReadNeighbours(lib: Library, db: Db, parcel: Parcel)
    requires Sound(lib, db)
    ensures ListsNeighbours(db, parcel, db.ActiveNeighbours(parcel.coordinateSystem, parcel.id))
    ensures AllParse(lib, db.ActiveNeighbours(parcel.coordinateSystem, parcel.id))
    ensures forall id | id in db.conflicts :: id < db.next.conflict
  {
    hide Sound, Db.ActiveNeighbours, AllParse, ListsNeighbours, RunsSound;
    SoundRuns(lib, db);
    NeighboursAreExactly(db, parcel);
    AllNeighboursParse(lib, db, parcel);
  }

  lemma AllNeighboursParse(lib: Library, db: Db, parcel: Parcel)
    requires Sound(lib, db)
    ensures AllParse(lib, db.ActiveNeighbours(parcel.coordinateSystem, parcel.id))
  {
    hide Sound, Parsed, Db.ActiveNeighbours;
    StoredNeighboursParse(lib, db, parcel.coordinateSystem, parcel.id);
    ReferencesAreRead(lib, db.ActiveNeighbours(parcel.coordinateSystem, parcel.id));
  }

  lemma KeyIsFree(lib: Library, db: Db, actorID: nat, key: string)
    requires Sound(lib, db) && forall r | r in db.runs :: !(db.runs[r].actorID == actorID && db.runs[r].key == key)
    ensures db.RunFor(actorID, key).None? && !db.RunKeyTaken(actorID, key)
  {
    hide Sound, KeysSound, RunsSound, Db.RunFor;
    SoundRuns(lib, db);
    LookUpIsExact(db, actorID, key);
  }

  /** What the analysis and the transaction come to when the key is free. */
  lemma FreshAnalysis(lib: Library, db: Db, actor: Actor, req: Request, proposal: Proposal, parcel: Parcel)
    requires req.DetectConflicts? && proposal.id == req.proposalID && Geometric(lib, proposal, parcel)
    requires db.RunFor(actor.id, req.key).None? && !db.RunKeyTaken(actor.id, req.key)
    requires AllParse(lib, db.ActiveNeighbours(parcel.coordinateSystem, parcel.id))
    requires forall id | id in db.conflicts :: id < db.next.conflict
    ensures var (d, response) := AnalysedAndStored(lib, db, actor, req, proposal, parcel);
      FreshOutcome(lib, db, actor, req, proposal, parcel, db.ActiveNeighbours(parcel.coordinateSystem, parcel.id), d, response)
  {
    hide Parsed, Db.RunFor, RequestHashOf, RequestHashFor, SnapMade, ReportMade, HashMade, DescribesAll, DetectionStored, Db.ActiveNeighbours,
      Db.RunKeyTaken, AllParse, Analysed, Hashing.InputHash, InputOf, Detect;
    var ns, t := db.ActiveNeighbours(parcel.coordinateSystem, parcel.id), EffectiveTolerance(req.tolerance, proposal);
    AnalysisConcludes(lib, proposal, parcel, ns, t, req.now);
    RequestHashIs(lib, req, proposal);
    InputHashIs(lib, proposal, parcel, ns, t);
    var result := Analysed(lib, proposal, parcel, ns, t, req.now);
    if result.Ok? {
      var plan := DetectPlan(proposal, parcel.id, result.value, RequestHashOf(lib, req, proposal), Hashing.InputHash(InputOf(lib, proposal, parcel, ns, t)));
      DetectFailsExactlyWhen(db, actor, req.key, plan);
      if Identified(actor) {
        DetectionIsStored(db, actor, req.key, plan);
      }
    }
  }

  lemma InputHashIs(lib: Library, proposal: Proposal, parcel: Parcel, ns: seq<Parcel>, t: real)
    ensures Hashing.InputHash(InputOf(lib, proposal, parcel, ns, t)) == HashMade(lib, proposal, parcel, ns, t)
  {
    hide Hashing.InputHash;
  }

  lemma DetectionIsStored(db: Db, actor: Actor, key: string, plan: Plan)
    requires plan.DetectPlan? && Detect(db, actor, key, plan).Some? && forall id | id in db.conflicts :: id < db.next.conflict
    ensures DetectionStored(db, actor, key, plan.source.id, plan.parcelID, plan.detections, plan.requestHash, plan.inputHash,
                            Detect(db, actor, key, plan).value, ConflictsAnswer(DetectedItems(db.next.conflict, plan.detections)))
  {
    hide AddConflicts, CompleteRun, Detect, ConflictsStored, Inserted;
    ConflictsInsertedBy(db, actor, key, plan);
    var tx := AddConflicts(db, actor, plan.parcelID, plan.detections).value;
    ConflictsInserted(db, actor, plan.parcelID, plan.detections);
    AllAdded(db, actor, plan.parcelID, plan.detections);
    RunCompleted(tx, actor, RunOf(db, actor, key, plan).(id := 0));
    RowsAreStored(db, plan.detections, tx, Detect(db, actor, key, plan).value);
    assert |Consecutive(db.next.conflict, |plan.detections|)| == |plan.detections|;
  }

  lemma RowsAreStored(db: Db, ds: seq<Detection>, tx: Db, d: Db)
    requires Inserted(tx, db.next.conflict, ds)
    requires tx == db.(conflicts := tx.conflicts, audits := tx.audits, next := db.next.(conflict := db.next.conflict + |ds|))
    requires d == tx.(runs := d.runs, audits := d.audits, next := tx.next.(run := tx.next.run + 1))
    requires forall id :: id in tx.conflicts <==> id in db.conflicts || db.next.conflict <= id < db.next.conflict + |ds|
    requires forall id | id in db.conflicts :: tx.conflicts[id] == db.conflicts[id]
    ensures ConflictsStored(db, ds, d, ConflictsAnswer(DetectedItems(db.next.conflict, ds)))
  {
  }

  lemma ConflictsInsertedBy(db: Db, actor: Actor, key: string, plan: Plan)
    requires plan.DetectPlan? && Detect(db, actor, key, plan).Some?
    ensures AddConflicts(db, actor, plan.parcelID, plan.detections).Some?
    ensures Detect(db, actor, key, plan) ==
      CompleteRun(AddConflicts(db, actor, plan.parcelID, plan.detections).value, actor, RunOf(db, actor, key, plan).(id := 0))
  {
    hide AddConflicts, CompleteRun;
  }

  lemma RunCompleted(tx: Db, actor: Actor, item: DetectionRun)
    requires CompleteRun(tx, actor, item).Some?
    ensures var run := item.(id := tx.next.run);
      CompleteRun(tx, actor, item).value ==
        tx.(runs := tx.runs[run.id := run], next := tx.next.(run := run.id + 1),
            audits := tx.audits + [Entry(actor.id, actor.name, actor.requestID, DetectionCompleted, run.id, Some(run.proposalID), Nothing, OfRun(run))])
  {
  }

  lemma OneAdded(tx: Db, actor: Actor, parcelID: nat, detection: Detection)
    requires AddConflict(tx, actor, parcelID, detection).Some?
    ensures var row := Conflict(tx.next.conflict, detection, Detected, None);
      AddConflict(tx, actor, parcelID, detection).value ==
        tx.(conflicts := tx.conflicts[row.id := row], next := tx.next.(conflict := row.id + 1),
            audits := tx.audits + [Entry(actor.id, actor.name, actor.requestID, ConflictDetected, row.id, Some(parcelID), Nothing, OfConflict(row))])
  {
  }

  function ConflictEntry(actor: Actor, parcelID: nat, row: Conflict): Entry {
    Entry(actor.id, actor.name, actor.requestID, ConflictDetected, row.id, Some(parcelID), Nothing, OfConflict(row))
  }

  /** The entries of a detection's conflicts, in order. */
  function ConflictEntries(actor: Actor, parcelID: nat, first: nat, ds: seq<Detection>): (r: seq<Entry>)
    ensures |r| == |ds|
    ensures forall k | 0 <= k < |ds| :: r[k] == ConflictEntry(actor, parcelID, Conflict(first + k, ds[k], Detected, None))
  {
    seq(|ds|, k requires 0 <= k < |ds| => ConflictEntry(actor, parcelID, Conflict(first + k, ds[k], Detected, None)))
  }

  lemma {:induction false} AllAdded(db: Db, actor: Actor, parcelID: nat, ds: seq<Detection>)
    requires AddConflicts(db, actor, parcelID, ds).Some? && forall id | id in db.conflicts :: id < db.next.conflict
    ensures var d, first := AddConflicts(db, actor, parcelID, ds).value, db.next.conflict;
      && (forall id :: id in d.conflicts <==> id in db.conflicts || first <= id < first + |ds|)
      && (forall id | id in db.conflicts :: d.conflicts[id] == db.conflicts[id])
      && d.audits == db.audits + ConflictEntries(actor, parcelID, first, ds)
  {
    var n := |ds| - 1;
    if |ds| > 0 {
      AllAdded(db, actor, parcelID, ds[..n]);
      ConflictsInserted(db, actor, parcelID, ds[..n]);
      var tx := AddConflicts(db, actor, parcelID, ds[..n]).value;
      assert AddConflicts(db, actor, parcelID, ds) == AddConflict(tx, actor, parcelID, ds[n]);
      hide AddConflicts, AddConflict, Inserted;
      OneAdded(tx, actor, parcelID, ds[n]);
      EntriesJoin(actor, parcelID, db.next.conflict, ds);
    }
  }

  lemma EntriesJoin(actor: Actor, parcelID: nat, first: nat, ds: seq<Detection>)
    requires |ds| > 0
    ensures var n := |ds| - 1;
      ConflictEntries(actor, parcelID, first, ds) ==
        ConflictEntries(actor, parcelID, first, ds[..n]) + [ConflictEntry(actor, parcelID, Conflict(first + n, ds[n], Detected, None))]
  {
  }
}
