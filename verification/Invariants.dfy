/**
  The invariant of the database, part by part, and how rows may evolve. `open` and
  `pending` name what a transaction has begun and not yet closed: a derived proposal whose
  conflict is not settled, and conflicts that no run lists yet. Both are empty between
  transactions.
 */
module Invariants {
  import opened Boundaries
  import opened Lifecycles
  import opened Records
  import opened AuditTrail

  // --- How rows evolve -----------------------------------------------------------------

  /** A version identifies the contents: equal versions mean equal rows. A superseded row is final, and one that becomes it names its replacement. */
  predicate ObservationEvolves(a: Observation, b: Observation) {
    && a.id == b.id && a.parcelID == b.parcelID && a.code == b.code && a.point == b.point
    && a.evidence == b.evidence && a.importedBy == b.importedBy
    && a.version <= b.version && (a.version == b.version ==> a == b)
    && (a == b || (a.state != Superseded && (b.state == Superseded ==> b.replacedBy.Some?)))
  }

  predicate ProposalEvolves(a: Proposal, b: Proposal) {
    SameDraft(a, b) && a.version <= b.version && (a.version == b.version ==> a == b)
  }

  /** A conflict carries no version; its state does the same job because the rank only falls. */
  predicate ConflictEvolves(a: Conflict, b: Conflict) {
    && a.id == b.id && a.detection == b.detection
    && Rank(b.state) <= Rank(a.state) && (Rank(a.state) == Rank(b.state) ==> a == b)
  }

  ghost predicate Follows(a: Db, b: Db) {
    && a.audits <= b.audits
    && (forall id | id in a.observations :: id in b.observations && ObservationEvolves(a.observations[id], b.observations[id]))
    && (forall id | id in a.proposals :: id in b.proposals && ProposalEvolves(a.proposals[id], b.proposals[id]))
    && (forall id | id in a.conflicts :: id in b.conflicts && ConflictEvolves(a.conflicts[id], b.conflicts[id]))
    && (forall id | id in a.runs :: id in b.runs && a.runs[id] == b.runs[id])
    && HistoriesGrow(Replay(a.audits), Replay(b.audits))
  }

  ghost predicate HistoriesGrow(l: Ledger, m: Ledger) {
    forall id | id in l.parcels :: id in m.parcels && l.parcels[id] <= m.parcels[id]
  }

  lemma FollowsItself(a: Db)
    ensures Follows(a, a)
  {
  }

  lemma FollowsTransitively(a: Db, b: Db, c: Db)
    requires Follows(a, b) && Follows(b, c)
    ensures Follows(a, c)
  {
    hide Replay, SameDraft;
    SameDraftIsTransitive();
  }

  lemma SameDraftIsTransitive()
    ensures forall p, q, r | SameDraft(p, q) && SameDraft(q, r) :: SameDraft(p, r)
  {
  }

  // --- Rows that were read earlier --------------------------------------------------------

  ghost predicate SeenParcel(db: Db, p: Parcel) {
    var l := Replay(db.audits);
    && p.id in l.parcels && 1 <= p.version <= |l.parcels[p.id]|
    && p == l.parcels[p.id][p.version - 1].(version := p.version)
  }

  ghost predicate SeenObservation(db: Db, o: Observation) {
    o.id in db.observations && ObservationEvolves(o, db.observations[o.id])
  }

  ghost predicate SeenProposal(db: Db, p: Proposal) {
    p.id in db.proposals && ProposalEvolves(p, db.proposals[p.id])
  }

  ghost predicate SeenConflict(db: Db, c: Conflict) {
    c.id in db.conflicts && ConflictEvolves(c, db.conflicts[c.id])
  }

  // --- The parts of the invariant ---------------------------------------------------------

  ghost predicate KeysSound(db: Db) {
    && (forall id | id in db.parcels :: db.parcels[id].id == id && id < db.next.parcel)
    && (forall id | id in db.observations :: db.observations[id].id == id && id < db.next.observation)
    && (forall id | id in db.proposals :: db.proposals[id].id == id && id < db.next.proposal)
    && (forall id | id in db.conflicts :: db.conflicts[id].id == id && id < db.next.conflict)
    && (forall id | id in db.runs :: db.runs[id].id == id && id < db.next.run)
  }

  /** The boundary parses, its stored area is its area, and its coordinate system is allowed. */
  predicate BoundarySound(lib: Library, p: Parcel) {
    Parsed(lib, p.boundary).Some? && p.area == AreaOf(lib, p.boundary) && lib.systemAllowed(p.coordinateSystem)
  }

  ghost predicate ParcelsSound(lib: Library, l: Ledger) {
    forall id, v | id in l.parcels && 0 <= v < |l.parcels[id]| ::
      BoundarySound(lib, l.parcels[id][v]) && l.parcels[id][v].id == id && l.parcels[id][v].code == l.parcels[id][0].code
  }

  /** The area delta is measured against the parcel's boundary at the base version. */
  predicate DraftSound(lib: Library, l: Ledger, p: Proposal) {
    && Parsed(lib, p.geometry).Some?
    && p.parcelID in l.parcels
    && 1 <= p.baseVersion <= |l.parcels[p.parcelID]|
    && p.areaDelta == AreaOf(lib, p.geometry) - l.parcels[p.parcelID][p.baseVersion - 1].area
  }

  /** The version counts the moves since birth; the reviewed phases have a reviewer, who is never the author. */
  predicate ReviewSound(p: Proposal, born: Proposal) {
    && born.version <= p.version
    && !p.state.UnknownProposalState?
    && Phase(p.state) == (p.version - born.version) % 5
    && (Phase(p.state) >= 3 ==> p.reviewedBy.Some?)
    && (p.reviewedBy.Some? ==> p.reviewedBy.value != p.createdBy)
  }

  ghost predicate ProposalsSound(lib: Library, db: Db, l: Ledger) {
    forall id | id in db.proposals ::
      DraftSound(lib, l, db.proposals[id]) && id in l.proposals && ReviewSound(db.proposals[id], l.proposals[id].born)
  }

  predicate ObservationSound(db: Db, o: Observation) {
    && o.parcelID in db.parcels && o.version >= 1
    && (o.replacedBy.Some? ==>
          && o.state == Superseded
          && o.replacedBy.value in db.observations
          && db.observations[o.replacedBy.value].parcelID == o.parcelID)
  }

  ghost predicate ObservationsSound(db: Db) {
    forall id | id in db.observations :: ObservationSound(db, db.observations[id])
  }

  /** The states entered so far: from detection down, each of lower rank than the one before. */
  predicate PathSound(life: ConflictLife) {
    && |life.path| > 0 && life.path[0] == Detected && life.path[|life.path| - 1] == life.state
    && forall i, j | 0 <= i < j < |life.path| :: Rank(life.path[i]) > Rank(life.path[j])
  }

  predicate ConflictSound(lib: Library, db: Db, c: Conflict, life: ConflictLife) {
    && c.detection.proposalID in db.proposals
    && !c.state.UnknownConflictState?
    && (c.resolvedBy.Some? <==> Settled(c.state))
    && PathSound(life)
    && (c.detection.suggestion.tolerance > 0.0 ==> Parsed(lib, c.detection.suggestion.snapped).Some?)
  }

  ghost predicate ConflictsSound(lib: Library, db: Db, l: Ledger) {
    forall id | id in db.conflicts :: id in l.conflicts && ConflictSound(lib, db, db.conflicts[id], l.conflicts[id])
  }

  /** Applied suggestions and derived proposals correspond one to one. */
  ghost predicate AppliedSound(db: Db, l: Ledger, open: set<nat>) {
    && l.derived == l.applied.Values + open
    && l.applied.Values !! open
    && (forall c, d | c in l.applied && d in l.applied && c != d :: l.applied[c] != l.applied[d])
    && (forall c | c in l.applied :: c in db.conflicts && Settled(db.conflicts[c].state))
    && l.derived <= db.proposals.Keys
  }

  ghost predicate Distinct(ids: seq<nat>) {
    forall i, j | 0 <= i < j < |ids| :: ids[i] != ids[j]
  }

  ghost predicate InSomeRun(db: Db, c: nat) {
    exists r :: r in db.runs && c in db.runs[r].resultIDs
  }

  /** What a run lists: distinct conflicts of its own proposal and input. */
  ghost predicate RunSound(db: Db, run: DetectionRun) {
    && run.proposalID in db.proposals
    && Distinct(run.resultIDs)
    && forall c | c in run.resultIDs ::
         && c in db.conflicts
         && db.conflicts[c].detection.proposalID == run.proposalID
         && db.conflicts[c].detection.inputHash == run.inputHash
  }

  /** One run per actor and key, and the conflicts are the runs' results and what is pending, without overlap. */
  ghost predicate RunsSound(db: Db, pending: seq<nat>) {
    && (forall r | r in db.runs :: RunSound(db, db.runs[r]))
    && (forall r, q | r in db.runs && q in db.runs && r != q ::
          && !(db.runs[r].actorID == db.runs[q].actorID && db.runs[r].key == db.runs[q].key)
          && forall c | c in db.runs[r].resultIDs :: c !in db.runs[q].resultIDs)
    && Distinct(pending)
    && (forall c | c in pending :: c in db.conflicts && !InSomeRun(db, c))
    && (forall c | c in db.conflicts :: c in pending || InSomeRun(db, c))
  }

  ghost predicate Core(lib: Library, db: Db, open: set<nat>) {
    var l := Replay(db.audits);
    && KeysSound(db)
    && LegalLog(db.audits)
    && Mirrors(l, db)
    && ParcelsSound(lib, l)
    && ProposalsSound(lib, db, l)
    && ObservationsSound(db)
    && ConflictsSound(lib, db, l)
    && AppliedSound(db, l, open)
  }

  /** What holds between transactions. */
  ghost predicate Sound(lib: Library, db: Db) {
    Core(lib, db, {}) && RunsSound(db, [])
  }

  lemma EmptyIsSound(lib: Library)
    ensures Sound(lib, EMPTY_DB)
  {
  }
}
