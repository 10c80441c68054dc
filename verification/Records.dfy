/**
  The stored rows, the audit log, and the database as one value. Each function on `Db`
  is one repository operation: None means that it failed and the transaction rolls back.
 */
module Records {
  import opened Options
  import opened Lifecycles
  import opened Snapping
  import Topology

  datatype Actor = Actor(id: nat, name: string, role: Role, requestID: string)

  datatype Parcel = Parcel(
    id: nat, code: string, name: string, boundary: string, coordinateSystem: string,
    area: real, version: nat, owner: string, state: string)

  datatype Evidence = Evidence(observedAt: int, method_: string, accuracy: real, checksum: string)

  datatype Observation = Observation(
    id: nat, parcelID: nat, code: string, point: string, evidence: Evidence,
    state: ObservationState, version: nat, replacedBy: Option<nat>, note: string, importedBy: nat)

  datatype Proposal = Proposal(
    id: nat, parcelID: nat, baseVersion: nat, geometry: string, observationIDs: seq<nat>,
    tolerance: real, areaDelta: real, state: ProposalState, rationale: string, version: nat,
    createdBy: nat, reviewedBy: Option<nat>)

  datatype Suggestion = Suggestion(
    snapped: string, changes: seq<SnapChange>, tolerance: real, coordinateSystem: string, inputHash: string)

  /** The part of a conflict that detection writes and nothing may change. */
  datatype Detection = Detection(
    proposalID: nat, parcelIDs: seq<nat>, kind: Topology.ConflictKind, geometry: string,
    magnitude: real, inputHash: string, suggestion: Suggestion, detectedAt: int)

  datatype Conflict = Conflict(id: nat, detection: Detection, state: ConflictState, resolvedBy: Option<nat>)

  datatype DetectionRun = DetectionRun(
    id: nat, proposalID: nat, actorID: nat, key: string, requestHash: string, inputHash: string, resultIDs: seq<nat>)

  // --- The audit log -------------------------------------------------------------------

  datatype Action =
    | ParcelCreated | ParcelUpdated
    | ObservationImported | ObservationStateChanged
    | ProposalCreated | ProposalCreatedFromConflict | ProposalStateChanged
    | ConflictDetected | ConflictStateChanged | ConflictSuggestionApplied
    | DetectionCompleted

  datatype Snapshot =
    | Nothing
    | OfParcel(parcel: Parcel)
    | OfObservation(observation: Observation)
    | OfProposal(proposal: Proposal)
    | OfConflict(conflict: Conflict)
    | OfRun(run: DetectionRun)
    | ObservationMove(observationState: ObservationState, observationVersion: nat, replacement: Option<nat>, note: string)
    | ProposalMove(proposalState: ProposalState, proposalVersion: nat)
    | ConflictMove(conflictState: ConflictState)
    | SuggestionMove(appliedState: ConflictState, proposalID: nat)

  datatype Entry = Entry(
    actorID: nat, actorName: string, requestID: string, action: Action,
    resourceID: nat, relatedID: Option<nat>, before: Snapshot, after: Snapshot)

  function EntryOf(actor: Actor, action: Action, resourceID: nat, relatedID: Option<nat>, before: Snapshot, after: Snapshot): Entry {
    Entry(actor.id, actor.name, actor.requestID, action, resourceID, relatedID, before, after)
  }

  // --- The database ----------------------------------------------------------------------

  /** The next identifier each table will hand out. */
  datatype Sequences = Sequences(parcel: nat, observation: nat, proposal: nat, conflict: nat, run: nat)

  datatype Db = Db(
    parcels: map<nat, Parcel>,
    observations: map<nat, Observation>,
    proposals: map<nat, Proposal>,
    conflicts: map<nat, Conflict>,
    runs: map<nat, DetectionRun>,
    audits: seq<Entry>,
    next: Sequences)
  {
    // Unique indexes

    predicate ParcelCodeTaken(code: string) {
      exists id | id in parcels :: parcels[id].code == code
    }

    predicate ObservationCodeTaken(code: string) {
      exists id | id in observations :: observations[id].code == code
    }

    predicate RunKeyTaken(actorID: nat, key: string) {
      exists id | id in runs :: runs[id].actorID == actorID && runs[id].key == key
    }

    // Inserts

    function InsertParcel(item: Parcel): Option<Db> {
      if ParcelCodeTaken(item.code) then None
      else Some(this.(parcels := parcels[next.parcel := item.(id := next.parcel)], next := next.(parcel := next.parcel + 1)))
    }

    function InsertObservation(item: Observation): Option<Db> {
      if ObservationCodeTaken(item.code) then None
      else Some(this.(observations := observations[next.observation := item.(id := next.observation)],
                      next := next.(observation := next.observation + 1)))
    }

    function InsertProposal(item: Proposal): Db {
      this.(proposals := proposals[next.proposal := item.(id := next.proposal)], next := next.(proposal := next.proposal + 1))
    }

    function InsertConflict(detection: Detection): Db {
      this.(conflicts := conflicts[next.conflict := Conflict(next.conflict, detection, Detected, None)],
            next := next.(conflict := next.conflict + 1))
    }

    function InsertRun(item: DetectionRun): Option<Db> {
      if RunKeyTaken(item.actorID, item.key) then None
      else Some(this.(runs := runs[next.run := item.(id := next.run)], next := next.(run := next.run + 1)))
    }

    // Conditional updates: compare, then set

    /** Compares the boundary version. */
    function UpdateParcel(item: Parcel, version: nat): Option<Db> {
      if item.id in parcels && parcels[item.id].version == version then
        var row := parcels[item.id];
        Some(this.(parcels := parcels[item.id := row.(
          name := item.name, boundary := item.boundary, coordinateSystem := item.coordinateSystem,
          owner := item.owner, state := item.state, area := item.area, version := row.version + 1)]))
      else None
    }

    /** Compares the version only. */
    function TransitionObservation(id: nat, version: nat, to: ObservationState, replacement: Option<nat>, note: string): Option<Db> {
      if id in observations && observations[id].version == version then
        var row := observations[id];
        Some(this.(observations := observations[id := row.(
          state := to, version := row.version + 1,
          replacedBy := if replacement.Some? then replacement else row.replacedBy,
          note := if note != "" then note else row.note)]))
      else None
    }

    /** Compares the version and the state. */
    function TransitionProposal(id: nat, version: nat, from: ProposalState, to: ProposalState, rationale: string, reviewer: Option<nat>): Option<Db> {
      if id in proposals && proposals[id].version == version && proposals[id].state == from then
        var row := proposals[id];
        Some(this.(proposals := proposals[id := row.(
          state := to, version := row.version + 1,
          rationale := if rationale != "" then rationale else row.rationale,
          reviewedBy := if reviewer.Some? then reviewer else row.reviewedBy)]))
      else None
    }

    /** Compares the state only. */
    function TransitionConflict(id: nat, from: ConflictState, to: ConflictState, resolver: Option<nat>): Option<Db> {
      if id in conflicts && conflicts[id].state == from then
        var row := conflicts[id];
        Some(this.(conflicts := conflicts[id := row.(
          state := to, resolvedBy := if resolver.Some? then resolver else row.resolvedBy)]))
      else None
    }

    /** Appends an audit entry; one without a request identifier is refused. */
    function Audit(entry: Entry): Option<Db> {
      if entry.requestID == "" then None else Some(this.(audits := audits + [entry]))
    }

    // Queries

    /** The first run with this actor and key among the identifiers below `n`. */
    function FindRun(actorID: nat, key: string, n: nat): Option<DetectionRun> {
      if n == 0 then None
      else
        var earlier := FindRun(actorID, key, n - 1);
        if earlier.None? && n - 1 in runs && runs[n - 1].actorID == actorID && runs[n - 1].key == key
        then Some(runs[n - 1]) else earlier
    }

    function RunFor(actorID: nat, key: string): Option<DetectionRun> {
      FindRun(actorID, key, next.run)
    }

    /** The active parcels of a coordinate system other than `exclude`, by ascending identifier below `n`. */
    function NeighboursBelow(coordinateSystem: string, exclude: nat, n: nat): seq<Parcel> {
      if n == 0 then []
      else
        var earlier := NeighboursBelow(coordinateSystem, exclude, n - 1);
        if n - 1 in parcels && parcels[n - 1].coordinateSystem == coordinateSystem
           && parcels[n - 1].state == "active" && n - 1 != exclude
        then earlier + [parcels[n - 1]] else earlier
    }

    function ActiveNeighbours(coordinateSystem: string, exclude: nat): seq<Parcel> {
      NeighboursBelow(coordinateSystem, exclude, next.parcel)
    }

    /** The conflicts with these identifiers in the order asked for; None when one is missing. */
    function ConflictsByID(ids: seq<nat>): Option<seq<Conflict>> {
      if exists i | 0 <= i < |ids| :: ids[i] !in conflicts then None
      else Some(seq(|ids|, i requires 0 <= i < |ids| => conflicts[ids[i]]))
    }
  }

  const EMPTY_DB := Db(map[], map[], map[], map[], map[], [], Sequences(1, 1, 1, 1, 1))
}
