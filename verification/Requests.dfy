/** What clients ask for, what they are told, and the pure part of conflict detection. */
module Requests {
  import opened Options
  import opened Boundaries
  import opened Lifecycles
  import opened Records
  import Hashing
  import Identifiers
  import Snapping
  import Topology

  datatype Request =
    | CreateParcel(code: string, name: string, boundary: string, coordinateSystem: string, owner: string, state: string)
    | UpdateParcel(id: nat, newName: Option<string>, newBoundary: Option<string>, newSystem: Option<string>,
                   newOwner: Option<string>, newState: Option<string>, newVersion: Option<nat>)
    | ImportObservation(parcelID: nat, code: string, point: string, evidence: Evidence,
                        observationState: Option<ObservationState>, note: string)
    | TransitionObservation(id: nat, toObservation: ObservationState, version: nat, replacement: Option<nat>, note: string)
    | CreateProposal(parcelID: nat, baseVersion: nat, geometry: string, observationIDs: seq<nat>, tolerance: real, rationale: string)
    | TransitionProposal(id: nat, toProposal: ProposalState, version: nat, rationale: string)
    | TransitionConflict(id: nat, toConflict: ConflictState)
    | ApplySuggestion(id: nat, rationale: string)
    | DetectConflicts(proposalID: nat, tolerance: real, key: string, now: int)

  datatype ErrorKind = InvalidInput | NotFound | StateConflict | Forbidden | Unprocessable | Internal

  datatype Response =
    | ParcelAnswer(parcel: Parcel)
    | ObservationAnswer(observation: Observation)
    | ProposalAnswer(proposal: Proposal)
    | ConflictAnswer(conflict: Conflict)
    | ConflictsAnswer(conflicts: seq<Conflict>)
    | Failed(error: ErrorKind)

  // --- Rules shared by several operations --------------------------------------------

  predicate KeyAccepted(key: string) {
    1 <= |key| <= 128
  }

  /** Zero means "use the proposal's tolerance". */
  function EffectiveTolerance(requested: real, proposal: Proposal): real {
    if requested == 0.0 then proposal.tolerance else requested
  }

  function HashOfRequest(lib: Library, proposalID: nat, tolerance: real): string {
    Hashing.RequestHash(proposalID, lib.toleranceText(tolerance))
  }

  /** The row an update request would leave, given the row it copied; None when a field is rejected. */
  function Updated(lib: Library, before: Parcel, req: Request): Option<Parcel>
    requires req.UpdateParcel?
  {
    if req.newSystem.Some? && !lib.systemAllowed(req.newSystem.value) then None
    else if req.newBoundary.Some? && Parsed(lib, req.newBoundary.value).None? then None
    else Some(before.(
      name := if req.newName.Some? then req.newName.value else before.name,
      owner := if req.newOwner.Some? then req.newOwner.value else before.owner,
      state := if req.newState.Some? then req.newState.value else before.state,
      coordinateSystem := if req.newSystem.Some? then req.newSystem.value else before.coordinateSystem,
      boundary := if req.newBoundary.Some? then req.newBoundary.value else before.boundary,
      area := if req.newBoundary.Some? then AreaOf(lib, req.newBoundary.value) else before.area))
  }

  // --- Detection, given everything it reads -----------------------------------------------

  function References(lib: Library, neighbours: seq<Parcel>): Option<seq<Topology.ParcelReference>> {
    if |neighbours| == 0 then Some([])
    else
      var earlier := References(lib, neighbours[..|neighbours| - 1]);
      var last := neighbours[|neighbours| - 1];
      var polygon := Parsed(lib, last.boundary);
      if earlier.None? || polygon.None? then None
      else Some(earlier.value + [Topology.ParcelReference(last.id, polygon.value)])
  }

  function PolygonsOf(references: seq<Topology.ParcelReference>): (r: seq<Polygon>)
    ensures |r| == |references|
  {
    seq(|references|, i requires 0 <= i < |references| => references[i].polygon)
  }

  function BoundaryList(neighbours: seq<Parcel>): (r: seq<(nat, string)>)
    ensures |r| == |neighbours|
    ensures forall i | 0 <= i < |r| :: r[i] == (neighbours[i].id, neighbours[i].boundary)
  {
    seq(|neighbours|, i requires 0 <= i < |neighbours| => (neighbours[i].id, neighbours[i].boundary))
  }

  /** Everything a detection's findings depend on, as it enters the input hash. */
  function InputOf(lib: Library, proposal: Proposal, parcel: Parcel, neighbours: seq<Parcel>, tolerance: real): Hashing.DetectionInput {
    Hashing.DetectionInput(parcel.boundary, proposal.geometry, parcel.coordinateSystem, lib.toleranceText(tolerance), BoundaryList(neighbours))
  }

  function DetectionOf(f: Topology.Finding, proposal: Proposal, parcel: Parcel, suggestion: Suggestion, now: int): Detection {
    Detection(proposal.id, Identifiers.Canonical([parcel.id, f.parcelID]), f.kind, f.evidence, f.magnitude,
              suggestion.inputHash, suggestion, now)
  }

  function DetectionsOf(findings: seq<Topology.Finding>, proposal: Proposal, parcel: Parcel, suggestion: Suggestion, now: int): (r: seq<Detection>)
    ensures |r| == |findings|
    ensures forall i | 0 <= i < |r| :: r[i] == DetectionOf(findings[i], proposal, parcel, suggestion, now)
  {
    seq(|findings|, i requires 0 <= i < |findings| => DetectionOf(findings[i], proposal, parcel, suggestion, now))
  }

  /** The analysis between the last read and the transaction. */
  function Analysed(lib: Library, proposal: Proposal, parcel: Parcel, neighbours: seq<Parcel>, tolerance: real, now: int)
    : Result<seq<Detection>, ErrorKind>
    requires Parsed(lib, parcel.boundary).Some? && Parsed(lib, proposal.geometry).Some?
  {
    var base, proposed := Parsed(lib, parcel.boundary).value, Parsed(lib, proposal.geometry).value;
    match References(lib, neighbours)
    case None => Err(Internal)
    case Some(references) =>
      match Snapping.Snapped(lib, proposed, [base] + PolygonsOf(references), tolerance)
      case None => Err(Unprocessable)
      case Some(snapped) =>
        match Topology.Detected(lib, base, snapped.polygon, references, tolerance)
        case None => Err(Internal)
        case Some(findings) =>
          var hash := Hashing.InputHash(InputOf(lib, proposal, parcel, neighbours, tolerance));
          var suggestion := Suggestion(snapped.encoded, snapped.changes, tolerance, parcel.coordinateSystem, hash);
          Ok(DetectionsOf(findings, proposal, parcel, suggestion, now))
  }
}
