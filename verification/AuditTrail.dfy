/**
  The audit log read back: what replaying it from empty says about every resource, and
  which entries may follow which.
 */
module AuditTrail {
  import opened Options
  import opened Lifecycles
  import opened Records

  datatype ObservationLife = ObservationLife(state: ObservationState, version: nat, replacedBy: Option<nat>)

  /** `born` is the proposal as first recorded. */
  datatype ProposalLife = ProposalLife(born: Proposal, state: ProposalState, version: nat, reviewedBy: Option<nat>)

  /** `path` lists the states entered, in order. */
  datatype ConflictLife = ConflictLife(state: ConflictState, resolvedBy: Option<nat>, path: seq<ConflictState>)

  datatype Ledger = Ledger(
    parcels: map<nat, seq<Parcel>>,              // boundary history: version v is entry v - 1
    observations: map<nat, ObservationLife>,
    proposals: map<nat, ProposalLife>,
    conflicts: map<nat, ConflictLife>,
    derived: set<nat>,                           // proposals created from a conflict
    applied: map<nat, nat>                       // conflict to the proposal its suggestion became
  )

  const BLANK := Ledger(map[], map[], map[], map[], {}, map[])

  function LifeOf(o: Observation): ObservationLife {
    ObservationLife(o.state, o.version, o.replacedBy)
  }

  function Born(p: Proposal): ProposalLife {
    ProposalLife(p, p.state, p.version, p.reviewedBy)
  }

  function MovedProposal(life: ProposalLife, to: ProposalState, version: nat, actorID: nat): ProposalLife {
    life.(state := to, version := version, reviewedBy := if IsProposalReviewTransition(to) then Some(actorID) else life.reviewedBy)
  }

  function MovedConflict(life: ConflictLife, to: ConflictState, actorID: nat): ConflictLife {
    life.(state := to, resolvedBy := if Settled(to) then Some(actorID) else life.resolvedBy, path := life.path + [to])
  }

  /** What one more entry adds to the ledger; an entry without the right `after` adds nothing. */
  function Recorded(l: Ledger, e: Entry): Ledger {
    var id := e.resourceID;
    match e.action
    case ParcelCreated => if e.after.OfParcel? then l.(parcels := l.parcels[id := [e.after.parcel]]) else l
    case ParcelUpdated =>
      if e.after.OfParcel? && id in l.parcels then l.(parcels := l.parcels[id := l.parcels[id] + [e.after.parcel]]) else l
    case ObservationImported =>
      if e.after.OfObservation?
      then l.(observations := l.observations[id := LifeOf(e.after.observation)]) else l
    case ObservationStateChanged =>
      if e.after.ObservationMove?
      then l.(observations := l.observations[id :=
                ObservationLife(e.after.observationState, e.after.observationVersion, e.after.replacement)]) else l
    case ProposalCreated => if e.after.OfProposal? then l.(proposals := l.proposals[id := Born(e.after.proposal)]) else l
    case ProposalCreatedFromConflict =>
      if e.after.OfProposal? then l.(proposals := l.proposals[id := Born(e.after.proposal)], derived := l.derived + {id}) else l
    case ProposalStateChanged =>
      if e.after.ProposalMove? && id in l.proposals
      then l.(proposals := l.proposals[id := MovedProposal(l.proposals[id], e.after.proposalState, e.after.proposalVersion, e.actorID)]) else l
    case ConflictDetected =>
      if e.after.OfConflict?
      then l.(conflicts := l.conflicts[id := ConflictLife(e.after.conflict.state, e.after.conflict.resolvedBy, [e.after.conflict.state])]) else l
    case ConflictStateChanged =>
      if e.after.ConflictMove? && id in l.conflicts
      then l.(conflicts := l.conflicts[id := MovedConflict(l.conflicts[id], e.after.conflictState, e.actorID)]) else l
    case ConflictSuggestionApplied =>
      if e.after.SuggestionMove? && id in l.conflicts
      then l.(conflicts := l.conflicts[id := MovedConflict(l.conflicts[id], e.after.appliedState, e.actorID)],
              applied := l.applied[id := e.after.proposalID]) else l
    case DetectionCompleted => l
  }

  function Replay(audits: seq<Entry>): Ledger {
    if |audits| == 0 then BLANK
    else Recorded(Replay(audits[..|audits| - 1]), audits[|audits| - 1])
  }

  /** An entry may follow: creations are of new resources, and a change's `before` is what the log says so far. */
  predicate Legal(l: Ledger, e: Entry) {
    var id := e.resourceID;
    match e.action
    case ParcelCreated => id !in l.parcels && e.after.OfParcel?
    case ParcelUpdated => id in l.parcels && e.after.OfParcel?
    case ObservationImported => id !in l.observations && e.after.OfObservation?
    case ObservationStateChanged =>
      && id in l.observations && e.before.OfObservation? && e.after.ObservationMove?
      && var o := e.before.observation;
         && l.observations[id] == ObservationLife(o.state, o.version, o.replacedBy)
         && CanTransitionObservation(o.state, e.after.observationState)
         && e.after.observationVersion == o.version + 1
    case ProposalCreated => id !in l.proposals && e.after.OfProposal?
    case ProposalCreatedFromConflict => id !in l.proposals && e.after.OfProposal?
    case ProposalStateChanged =>
      && id in l.proposals && e.before.OfProposal? && e.after.ProposalMove?
      && var p := e.before.proposal;
         && l.proposals[id] == ProposalLife(l.proposals[id].born, p.state, p.version, p.reviewedBy)
         && CanProposalTransition(p.state, e.after.proposalState)
         && e.after.proposalVersion == p.version + 1
    case ConflictDetected => id !in l.conflicts && e.after.OfConflict?
    case ConflictStateChanged =>
      && id in l.conflicts && e.before.OfConflict? && e.after.ConflictMove?
      && var c := e.before.conflict;
         && l.conflicts[id] == ConflictLife(c.state, c.resolvedBy, l.conflicts[id].path)
         && CanConflictTransition(c.state, e.after.conflictState)
    case ConflictSuggestionApplied =>
      && id in l.conflicts && e.before.OfConflict? && e.after.SuggestionMove?
      && var c := e.before.conflict;
         && l.conflicts[id] == ConflictLife(c.state, c.resolvedBy, l.conflicts[id].path)
         && c.state == ResolutionProposed && e.after.appliedState == Resolved
         && id !in l.applied && e.after.proposalID in l.derived
    case DetectionCompleted => e.after.OfRun?
  }

  /** Every entry was legal when it was appended, and was made by an identified request. */
  predicate LegalLog(audits: seq<Entry>) {
    |audits| > 0 ==>
      && LegalLog(audits[..|audits| - 1])
      && Legal(Replay(audits[..|audits| - 1]), audits[|audits| - 1])
      && audits[|audits| - 1].requestID != ""
  }

  lemma Append(audits: seq<Entry>, e: Entry)
    ensures Replay(audits + [e]) == Recorded(Replay(audits), e)
    ensures LegalLog(audits + [e]) <==> LegalLog(audits) && Legal(Replay(audits), e) && e.requestID != ""
  {
    assert (audits + [e])[..|audits|] == audits;
  }

  // --- The database agrees with its log --------------------------------------------------

  /** The fields of a proposal that no transition touches. */
  predicate SameDraft(p: Proposal, q: Proposal) {
    && p.id == q.id && p.parcelID == q.parcelID && p.baseVersion == q.baseVersion && p.geometry == q.geometry
    && p.observationIDs == q.observationIDs && p.tolerance == q.tolerance && p.areaDelta == q.areaDelta && p.createdBy == q.createdBy
  }

  predicate ParcelAgrees(row: Parcel, history: seq<Parcel>) {
    |history| > 0 && row == history[|history| - 1].(version := |history|)
  }

  predicate ProposalAgrees(row: Proposal, life: ProposalLife) {
    life.state == row.state && life.version == row.version && life.reviewedBy == row.reviewedBy && SameDraft(life.born, row)
  }

  predicate ConflictAgrees(row: Conflict, life: ConflictLife) {
    life.state == row.state && life.resolvedBy == row.resolvedBy
  }

  /** Replaying the log yields exactly the stored lifecycles. */
  ghost predicate Mirrors(l: Ledger, db: Db) {
    && l.parcels.Keys == db.parcels.Keys
    && l.observations.Keys == db.observations.Keys
    && l.proposals.Keys == db.proposals.Keys
    && l.conflicts.Keys == db.conflicts.Keys
    && (forall id | id in db.parcels :: ParcelAgrees(db.parcels[id], l.parcels[id]))
    && (forall id | id in db.observations ::
          l.observations[id] == ObservationLife(db.observations[id].state, db.observations[id].version, db.observations[id].replacedBy))
    && (forall id | id in db.proposals :: ProposalAgrees(db.proposals[id], l.proposals[id]))
    && (forall id | id in db.conflicts :: ConflictAgrees(db.conflicts[id], l.conflicts[id]))
  }
}
