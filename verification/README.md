# Cadastral boundaries: the transactional store, its lifecycles and the detection geometry

This project models the backend of ParcelGraph: parcels, survey observations, boundary
proposals and topology conflicts, the audit log and the detection runs; the geometry that
snaps a proposal to its neighbours and finds conflicts; the rate limiter; and the small
algorithms around them. It proves what these keep under every interleaving of calls.

How the parts fit together:

- `Planar`, `Boundaries`, `Snapping`, `Topology` are the geometry, over real coordinates and squared
  distances; all results are for exact arithmetic. Ring closure and orientation follow section 3.1.6
  of RFC 7946. The overlay library is a record of functions (`Boundaries.Library`), so everything
  holds for any deterministic library. `SnapMeaning` and `Reports` say what a snap and a report are in terms
  of the reference polygons, the library's answers and plain numbers.
- `Hashing`, `Identifiers`, `Redaction`, `RateLimiting` are the algorithms that stand alone; `Windows` gives the rate
  limiter's decision from the list of calls alone.
- `Lifecycles`, `Records`, `Requests`, `Calls` are the step system. A call reads one row at a time, checks
  its guards on what it read, and runs one all-or-nothing transaction; between any two of its steps
  other calls take theirs. `Calls.Run` is the state after any sequence of moves: a new request, a step
  of any call, or identifiers skipped by the database's sequences. `Scheduling` shows that serving a
  request uninterrupted is such a sequence.
- `AuditTrail` reads the log back. `Invariants`, `Commits`, `Transactions`, `Interleaving` prove the invariant
  over every run; `Analyses`, `Detections`, `Derivations`, `ReplacementLinks`, `Provenance` add
  where results came from.
- `Idempotence`, `Histories`, `Staleness`, `Outcomes`, `Overlaps`, `ObservationChains`, `Provenance`,
  `Reproducibility` hold the results; `SnappingExample` is a worked case of two snaps.
- `Stores` and `Services` are the store and the service as classes that change their fields in place. Each
  service method is proved to leave the store and answer as `Calls.Serve` says of the uninterrupted call.

Where the code differs from what the repository's `README.md` promises, the model follows the code, and a
lemma says exactly when the promise is kept:

- Line 151 promises a 409 for a stale state or version transition. Parcel updates, imports and applied
  suggestions answer a failed transaction with an internal error; the others keep the promise
  (`Staleness.StaleCallsAreTold`). `TransitionProposal` never compares the version in the request, so it
  refuses a stale one only when its other guards do (`Staleness.RequestVersionIsIgnored`,
  `Outcomes.ProposalMoveOutcome`).
- Line 73 calls the parcel update a version-update. It compares the version the client names, which need not
  be that of the row it copied; the fields not named and the `before` snapshot are current if and only if the
  two are equal (`Histories.SnapshotIsTheRow`, with a lost update from every
  reachable state in `Overlaps.UpdatesCanBeLost`).

Properties a reader might expect that the repository does not promise, with their exact conditions:

- The answer to a proposal transition shows the old rationale; the log entry omits it
  (`Staleness.ConfirmationsReportRows`).
- The replacement of an observation is checked outside the transaction, so replacement links can form a
  cycle; they do if and only if a committed supersession closes a loop (`ObservationChains.ChainsEndExactlyWhen`).
  Overlapping requests do so (`ObservationChains.OverlapClosesACycle`), requests served one at a time never
  (`ObservationChains.EveryChainHasOneLiveEnd`).
- The base version of a proposal is checked when its parcel is read, not when it is committed; it is still
  current if and only if no update was logged in between (`Overlaps.BaseVersionLag`, with an overlap in which it
  is not in `Overlaps.BaseVersionsCanLag`).
- Snapping a snapped boundary again can move it once more (`SnappingExample.OnePassCanFallShort`), for exactly the
  points of `Snapping.OnePassSuffices`. A third pass moves no coordinate (`Snapping.ThirdPassChangesNothing`); for
  the polygons read back from their encoding this needs what is encoded to decode to itself or not at all
  (`Snapping.ThirdSnapChangesNothing`).
- Only the lowest neighbour's gap is reported, because all gaps share one geometry
  (`Topology.OwnGapReportedExactly`).

## Model

| member | source | states |
|---|---|---|
| Idempotence.AnswersAgree | backend/internal/service/topology_conflict_service.go:36-41 | over every run and interleaving, two successful detection answers to one actor under one key list the same conflicts in the same order with the same detection fields, and were to the same proposal and tolerance text (which contains no NUL), whether they came from the first commit, an early replay or a replay after a lost race |
| Idempotence.OneRunPerKey | backend/internal/model/topology_conflict.go:32-33 | in every reachable state at most one detection run is stored per actor and key |
| Idempotence.TakenKeyAnswers | backend/internal/service/topology_conflict_service.go:36-41 | once a key is taken, a request under it gets the stored run's conflicts if its hash matches and a conflict error otherwise; the database is unchanged either way |
| Idempotence.LoserIsAnswered | backend/internal/service/topology_conflict_service.go:128-133 | an identified call whose detection transaction fails is answered from the run that won the key, or refused for its own different hash, never with an internal error |
| Idempotence.ReplayIsNeverLost | backend/internal/service/topology_conflict_service.go:36-41 | over every run, a detection that finds its key taken, or is identified and loses the race, never changes the database again and whatever other calls do can only be answered with conflicts or a conflict error |
| Idempotence.AskingAgain | backend/internal/service/topology_conflict_service.go:252-265 | a detection answered at any earlier moment is answered again, at any later moment of any run, with the same conflicts and no change to the database |
| Idempotence.EveryConflictHasOneRun | backend/internal/service/topology_conflict_service.go:105-127 | every stored conflict is listed by exactly one run at exactly one position, with that run's proposal and input hash; a rolled-back detection leaves nothing behind |
| Idempotence.DetectionsNeverChange | backend/internal/service/topology_conflict_service.go:99-103 | between any two moments of a run, stored runs and the detection fields of stored conflicts are the same |
| Interleaving.ReplayFindsEveryResult | backend/internal/repository/topology_conflict_repository.go:33-54 | a replayed run never misses one of its conflicts: the lookup by identifiers succeeds and lists them in the stored order |
| Interleaving.LookUpIsExact | backend/internal/repository/topology_conflict_repository.go:96-105 | the lookup by actor and key succeeds exactly when the unique index would refuse an insert, and yields that run |
| Reproducibility.SameHashSameFindings | backend/internal/service/topology_conflict_service.go:62-103 | detections at one tolerance with equal input hashes fail alike or make the same findings in the same order with the same suggestion, whatever proposals and parcels they were for |
| Reproducibility.SameHashSameResults | backend/internal/service/topology_conflict_service.go:62-122 | in every reachable state, two stored runs with one input hash, made at one tolerance, list conflicts with the same kind, geometry, magnitude and suggestion in the same order |
| Reproducibility.EqualInputsEqualConflicts | backend/internal/service/topology_conflict_service.go:62-122 | the same, where the equal tolerance is that recorded in one conflict of each run |
| Interleaving.EveryRunIsSound | backend/internal/repository/support_repository.go:66-68 | the whole invariant (log, lifecycles, areas, runs, applications) and what every unfinished call knows hold after every run of any number of calls |
| Interleaving.StepKeepsSound | backend/internal/repository/support_repository.go:66-68 | one step of one call keeps the invariant, only lets rows evolve, and leaves the call with knowledge that is true |
| Interleaving.CallStays | backend/internal/service/topology_conflict_service.go:20-135 | what a call learned from its reads stays true while other calls commit |
| Interleaving.RunsOnlyEvolve | backend/internal/repository/support_repository.go:66-68 | later states follow from earlier ones: the log and the boundary histories are extended, versions never fall, conflict ranks never rise, equal versions or states mean equal rows |
| Transactions.CommitKeepsSound | backend/internal/repository/support_repository.go:66-68 | every committed transaction takes a sound database to a sound one in which rows have only evolved |
| Scheduling.CallFinishes | backend/internal/service/topology_conflict_service.go:20-135 | in every state of every run, any call can be run to its answer, and leaves what serving it uninterrupted leaves |
| Scheduling.ServingIsARun | backend/internal/service/topology_conflict_service.go:20-135 | so serving a request is one of the interleavings, from any reachable state |
| Scheduling.TurnsAreRuns | backend/internal/service/topology_conflict_service.go:20-135 | and so is serving any list of requests one after another |
| Staleness.TransactionsFailExactlyWhen | backend/internal/repository/support_repository.go:66-68 | in every reachable state a transaction fails if and only if its request is unidentified or the rows its plan was made from have changed (for inserts: the unique value is taken) |
| Histories.SnapshotIsTheRow | backend/internal/service/topology_conflict_service.go:172-177 | the row read before a transaction is still the row at commit, for all three compare-and-set styles; for parcels this holds if and only if the version used is the version copied |
| Histories.LogRebuildsTheDatabase | backend/internal/service/support_service.go:206-218 | after every run, replaying the audit log from empty yields every proposal's state, version and reviewer, every conflict's state and resolver, every observation's state, version and replacement and every parcel's boundary; and the before of each proposal, conflict and observation entry shows exactly the state, version, reviewer, resolver and replacement that the log said until then (a parcel entry's before may be older: see SnapshotIsTheRow) |
| Histories.ConflictLivesAreShort | backend/internal/constants/conflict_type.go:22-31 | over every run a conflict enters no state twice, moves at most four times, and has its suggestion applied at most once |
| Histories.ConflictsAreCounted | backend/internal/service/topology_conflict_service.go:234-245 | the entries for a conflict number exactly its moves, and its application is recorded once exactly when it is on record |
| Histories.ApplicationsAreDerivations | backend/internal/service/topology_conflict_service.go:228-245 | applied conflicts and proposals created from conflicts are in bijection, counted in the log and stored in the tables |
| Provenance.DerivedProposalsAreSuggestions | backend/internal/service/topology_conflict_service.go:207-249 | after any run, the proposal a suggestion became has the suggested geometry on the parcel, observations and tolerance of the source; its author is whoever the log says applied it; it was born one version after one the source has had; and its area delta is measured against a boundary the parcel has had, at its base version |
| Provenance.DetectionsAreFindings | backend/internal/service/topology_conflict_service.go:43-127 | after any run, every stored run was made from rows that were stored when read, its neighbours being all there were, and its conflicts are, in order, the findings of the report on the proposal snapped against exactly the parcel's boundary and those neighbours' |
| Provenance.SuggestionsAreSnaps | backend/internal/service/topology_conflict_service.go:62-87 | after any run, every stored suggestion is its own proposal's geometry snapped at the recorded tolerance against exactly the boundaries of the parcel and of the neighbours read, in that order |
| Provenance.StoredMovesAreNearest | backend/internal/service/topology_conflict_service.go:62-87 | after any run, a coordinate of a proposal with a vertex of those boundaries within tolerance went to a nearest one, else to a nearest edge point within tolerance, else nowhere, and the stored changes say so |
| Provenance.StoredFindingsAreWarranted | backend/internal/service/topology_conflict_service.go:79-103 | after any run, a run's stored conflicts are exactly the findings that the snapped polygon warrants against the neighbours read, each for the lowest-numbered one with its kind and evidence |
| Provenance.AppliedAreaDrift | backend/internal/service/topology_conflict_service.go:213-231 | after any run, if encoded geometry decodes to itself or not at all, a derived proposal's area differs from its source's by at most the rings' drift t·P + n·t²/2 summed, and not at all without a tolerance |
| Provenance.EveryDetectionWasMade | backend/internal/service/topology_conflict_service.go:43-103 | after any run, every stored run is the analysis of rows that were all stored when read, with their request and input hashes; its conflicts' detection fields are that analysis' findings in order |
| Provenance.EveryRunIsAccounted | backend/internal/service/topology_conflict_service.go:20-135 | the invariant behind these, over every run and every unfinished call |
| Staleness.ApplicationsRewriteNothing | backend/internal/service/topology_conflict_service.go:234-249 | in every reachable state, the step that runs an application's transaction either changes nothing or adds its draft and resolves its conflict; every parcel, observation, run, proposal and other conflict is the same after it as before |
| Staleness.DraftsNeverChange | backend/internal/repository/boundary_proposal_repository.go:53-64 | between any two moments of a run no proposal's parcel, base version, geometry, citations, tolerance, area delta or author changes |
| Histories.SuggestionsParse | backend/internal/service/topology_conflict_service.go:213-216 | wherever snapping was on, a stored suggestion parses, so applying it cannot fail on its geometry |
| Histories.PhasesAreInStep | backend/internal/constants/proposal_state.go:16-23 | over every run the version counts a proposal's moves modulo the five-step cycle, reviewed phases have a reviewer, and a reviewer is never the author |
| Histories.DeltasAreHistorical | backend/internal/service/boundary_proposal_service.go:24-45 | over every run a draft's area delta is the area of its geometry less that of its parcel's boundary at the base version, which the parcel has reached; so for derived drafts too |
| Histories.HistoryIsKept | backend/internal/service/land_parcel_service.go:109-114 | the row a parcel had at any earlier moment is the entry of its version in the log |
| Histories.AreasAreExact | backend/internal/service/land_parcel_service.go:100-108 | over every run the stored area is the area of the stored boundary, which parses |
| Histories.StoredGeometryIsUsable | backend/internal/service/topology_conflict_service.go:43-57 | what detection loads after reading a proposal is always there and always parses |
| Interleaving.StoredNeighboursParse | backend/internal/service/topology_conflict_service.go:65-69 | the error for an invalid stored neighbour cannot occur |
| Staleness.RequestVersionIsIgnored | backend/internal/service/boundary_proposal_service.go:78-101 | moving a proposal gives the same result whatever version the request names |
| Outcomes.ProposalMoveOutcome | backend/internal/service/boundary_proposal_service.go:78-140 | uninterrupted, with states and roles written out: into reviewed, accepted, rejected and revision exactly a reviewer or administrator who is not the author, into draft, validated and submitted exactly the author or an administrator, along the five-step cycle; the whole row, answer and entry that result, and each error |
| Outcomes.UpdateOutcome | backend/internal/service/land_parcel_service.go:76-124 | uninterrupted, field by field: each field is the requested value if one is given and else the row's, code and identifier stay, a disallowed system or an unparsable boundary is rejected, one entry is logged and nothing else changes; a stale version is an internal error |
| Outcomes.ReplacementArea | backend/internal/service/land_parcel_service.go:105-112 | after any run the area an update leaves is that of the boundary it leaves |
| Overlaps.UpdatesCanBeLost | backend/internal/service/land_parcel_service.go:76-124 | from every reachable state with a parcel, explicit further moves in which an update that names the version after the one it copied undoes a rename served in between |
| Overlaps.VersionsCountUpdates | backend/internal/repository/land_parcel_repository.go:74-88 | after any run a parcel's version is one more than the updates logged for it |
| Overlaps.BaseVersionLag | backend/internal/service/boundary_proposal_service.go:24-45 | over every run, when a proposal is committed its parcel is ahead of the base version by exactly the updates logged since the parcel was read, so the base version is current if and only if there was none |
| Overlaps.BaseVersionsCanLag | backend/internal/service/boundary_proposal_service.go:24-45 | from every reachable state with a parcel, further moves that commit a proposal one version behind, though its base version was checked |
| Overlaps.OverlapsAreReached | backend/internal/service/land_parcel_service.go:76-124 | both happen in runs from the empty database, for any accepted boundary and coordinate system |
| Staleness.ConfirmationsReportRows | backend/internal/service/boundary_proposal_service.go:106-115 | in every reachable state a confirmation equals the committed row, if and only if it is not a proposal move that changed the rationale |
| Staleness.StaleCallsAreTold | backend/internal/service/topology_conflict_service.go:301-311 | in every reachable state a stale identified call changes nothing and is told of a conflict if and only if it is not a parcel update, an import or an application; a stale detection goes on to the run that took its key |
| Outcomes.ParcelCreationOutcome | backend/internal/service/land_parcel_service.go:22-54 | uninterrupted: the errors in order, and on success the whole new row, the identifier and the one entry; nothing else changes |
| Outcomes.ImportOutcome | backend/internal/service/survey_observation_service.go:14-42 | the same for an import, a taken code being an internal error |
| Outcomes.ObservationMoveOutcome | backend/internal/service/survey_observation_service.go:64-118 | the same for an observation's move, with the version, the table, the roles and the replacement rules written out in the order they are tried |
| Outcomes.ProposalCreationOutcome | backend/internal/service/boundary_proposal_service.go:16-56 | the same for a proposal, with every field of the draft: citations, tolerance, rationale, area delta, and the actor as its author |
| Outcomes.ConflictMoveOutcome | backend/internal/service/topology_conflict_service.go:157-184 | the same for a conflict, with the table written out; resolving and closing record the actor |
| Outcomes.ApplicationOutcome | backend/internal/service/topology_conflict_service.go:186-250 | the same for an application on a sound database: every field of the derived draft, the resolved conflict and both entries; source and parcel are never missing |
| Outcomes.DetectionRefused | backend/internal/service/topology_conflict_service.go:21-28 | a key of no or more than 128 characters, and an unknown proposal, are refused |
| Outcomes.TakenKeyOutcome | backend/internal/service/topology_conflict_service.go:32-41 | on a sound database a taken key answers with the run's conflicts as they are now, in the run's order, if the request hash over proposal and effective tolerance is the run's, and with a conflict error otherwise |
| Outcomes.FreshKeyOutcome | backend/internal/service/topology_conflict_service.go:43-134 | on a sound database a free key leads to the report on the proposal snapped against its parcel and all neighbours: every conflict, the run, every entry and the answer, or the error of a failed snap, a failed overlay or an unidentified request |
| Analyses.NeighboursAreExactly | backend/internal/repository/land_parcel_repository.go:65-72 | the neighbours of a detection are exactly the other active parcels of the coordinate system, by ascending identifier |
| Analyses.AnalysisConcludes | backend/internal/service/topology_conflict_service.go:50-104 | what an analysis comes to, from the snap, the report and the rows: each error, and each finding as it is stored, with the parcel and the finding's neighbour as participants |
| ObservationChains.EveryChainHasOneLiveEnd | backend/internal/service/survey_observation_service.go:82-98 | with requests served one at a time, from every observation the replacement links lead in finitely many steps to exactly one observation without a replacement, on the same parcel and, if a link was followed, not superseded |
| ObservationChains.ChainsEndExactlyWhen | backend/internal/service/survey_observation_service.go:82-107 | over every interleaving, all chains end if and only if each supersession, when it was committed, named a replacement whose own chain did not lead back to the superseded observation |
| ObservationChains.MoveKeepsChainsExactlyWhen | backend/internal/service/survey_observation_service.go:100-107 | in every reachable state a move leaves all chains ending if and only if they all ended before and it does not commit a supersession that closes a loop |
| ReplacementLinks.CommitKeepsChainsExactlyWhen | backend/internal/repository/survey_observation_repository.go:53-69 | the same of one transaction on a sound database, of any kind |
| ObservationChains.ChainsEndLive | backend/internal/service/survey_observation_service.go:86-95 | in every state of every run, a chain that ends does so at one observation, on the same parcel, and one that is not superseded if a link was followed |
| ObservationChains.OverlapClosesACycle | backend/internal/service/survey_observation_service.go:86-107 | from every reachable state with two usable observations of one parcel, eight further moves of two overlapping requests make both succeed and leave neither chain ending |
| ObservationChains.CyclesAreReached | backend/internal/service/survey_observation_service.go:86-107 | such a state, and so a cycle, is reached from the empty database for any accepted boundary, coordinate system and point |
| ReplacementLinks.EndIsUnique | backend/internal/repository/survey_observation_repository.go:53-57 | a chain has one end |
| ReplacementLinks.CyclesDoNotEnd | backend/internal/repository/survey_observation_repository.go:53-57 | what leads back to itself never ends |
| Services.CadastralService.CreateParcel | backend/internal/service/land_parcel_service.go:22-54 | leaves the store and answers as the step system says of the uninterrupted call |
| Services.CadastralService.UpdateParcel | backend/internal/service/land_parcel_service.go:76-124 | likewise, copying the row and assigning the requested fields step by step |
| Services.CadastralService.ImportObservation | backend/internal/service/survey_observation_service.go:14-42 | likewise |
| Services.CadastralService.TransitionObservation | backend/internal/service/survey_observation_service.go:64-118 | likewise, with the replacement read outside the transaction |
| Services.CadastralService.CreateProposal | backend/internal/service/boundary_proposal_service.go:16-56 | likewise, checking the cited observations one after another |
| Services.CadastralService.TransitionProposal | backend/internal/service/boundary_proposal_service.go:78-115 | likewise |
| Services.CadastralService.TransitionConflict | backend/internal/service/topology_conflict_service.go:157-184 | likewise |
| Services.CadastralService.ApplyConflictSuggestion | backend/internal/service/topology_conflict_service.go:186-250 | likewise, with the proposal, the conflict and both audit entries in one transaction |
| Services.CadastralService.StoreDerived | backend/internal/service/topology_conflict_service.go:234-249 | the transaction happens wholly or not at all |
| Services.CadastralService.DetectConflicts | backend/internal/service/topology_conflict_service.go:20-135 | likewise, through the snapping, detection, hashing and identifier loops below |
| Services.CadastralService.StoreDetection | backend/internal/service/topology_conflict_service.go:105-127 | stores every conflict and then the run that lists their identifiers, or nothing |
| Services.CadastralService.StoreOrReplay | backend/internal/service/topology_conflict_service.go:105-134 | when storing fails, answers from the run found under the key |
| Services.CadastralService.ReplayDetectionRun | backend/internal/service/topology_conflict_service.go:252-265 | a run with another request hash is a conflict; otherwise its conflicts as they are now |
| Services.CadastralService.Examine | backend/internal/service/topology_conflict_service.go:50-104 | the loops over neighbours and findings compute the detection on the rows read, and its input hash |
| Services.CadastralService.LoadReferences | backend/internal/service/topology_conflict_service.go:62-73 | parses every neighbour in order and lists exactly the hashed parts, or fails |
| Stores.Store.Begin | backend/internal/repository/support_repository.go:66-68 | a transaction starts from a copy of the tables |
| Stores.Store.Commit | backend/internal/repository/support_repository.go:66-68 | and becomes visible as a whole |
| Stores.Store.UpdateParcel | backend/internal/repository/land_parcel_repository.go:74-88 | changes the row and bumps its version if and only if the boundary version matches; otherwise nothing changes |
| Stores.Store.TransitionObservation | backend/internal/repository/survey_observation_repository.go:53-69 | compares the version only; keeps the replacement and note it is not given |
| Stores.Store.TransitionProposal | backend/internal/repository/boundary_proposal_repository.go:53-64 | compares version and state |
| Stores.Store.TransitionConflict | backend/internal/repository/topology_conflict_repository.go:78-91 | compares the state only |
| Stores.Store.CreateRun | backend/internal/repository/topology_conflict_repository.go:107-112 | refuses a second run for an actor and key |
| Stores.Store.CreateAudit | backend/internal/repository/support_repository.go:152-160 | refuses an entry without a request identifier |
| Stores.Store.GetByActorKey | backend/internal/repository/topology_conflict_repository.go:96-105 | finds the first run with this actor and key |
| Stores.Store.ListByIDs | backend/internal/repository/topology_conflict_repository.go:33-54 | puts the rows into the order asked for, or fails when one is missing |
| Stores.Store.ListActiveByCoordinateSystem | backend/internal/repository/land_parcel_repository.go:65-72 | lists the other active parcels of a coordinate system by ascending identifier |
| Planar.AreaDrift | backend/internal/geometry/geometry.go:135-141 | for a closed ring of n edges and taxicab perimeter P, moving every vertex by at most t changes the signed area by at most t·P + n·t²/2 |
| Planar.ChainDrift | backend/internal/geometry/geometry.go:135-141 | the edge-by-edge form, with the telescoping terms that cancel on closure |
| Planar.ComputeSignedArea | backend/internal/geometry/geometry.go:135-141 | the loop computes half the shoelace sum |
| Planar.TriangleArea | backend/internal/geometry/geometry.go:135-141 | for a triangle it is half the crossed edge vectors |
| Planar.AreaOfPieces | backend/internal/geometry/geometry.go:135-141 | and it adds up over the pieces of a cut |
| Planar.ProjectionIsClosest | backend/internal/geometry/geometry.go:238-247 | the clamped projection lies on the segment and no point of the segment is closer |
| Boundaries.ParsePolygon | backend/internal/geometry/geometry.go:64-96 | accepts exactly the decoded polygons whose rings are closed, have four positions and turn the right way, with positive area |
| Boundaries.ParsedExactly | backend/internal/geometry/geometry.go:64-96 | accepted are exactly decoded, valid polygons whose rings are closed with four positions, the first turning left and the others right, of positive area; the area is the sum of the rings' signed areas |
| Boundaries.AreaIsSigned | backend/internal/geometry/geometry.go:76-86 | every hole takes away its area |
| Snapping.FindSnapTarget | backend/internal/geometry/geometry.go:213-236 | the loops find the first nearest vertex within tolerance, else the first nearest edge point |
| Snapping.EdgeTargetIsNearest | backend/internal/geometry/geometry.go:223-231 | with no vertex in reach the target is at least as near as every point of every reference edge in reach |
| Snapping.UnmovedExactly | backend/internal/geometry/geometry.go:232-234 | a point stays if and only if it is a reference vertex, or no vertex is in reach and it lies on an edge or no edge point is in reach |
| Snapping.EdgeTargetIsInterior | backend/internal/geometry/geometry.go:223-235 | an edge snap ends strictly inside its segment and never on a vertex |
| Snapping.ReferenceEndpointsListed | backend/internal/geometry/geometry.go:177-188 | both endpoints of every collected edge are collected as vertices |
| Snapping.TwoPassesSuffice | backend/internal/geometry/geometry.go:213-247 | a third pass changes nothing after two |
| Snapping.OnePassSuffices | backend/internal/geometry/geometry.go:213-247 | one pass is enough for a point if and only if it does not lie off every edge, with no vertex but an edge in reach, and a vertex in reach of the first nearest foot |
| SnappingExample.OnePassCanFallShort | backend/internal/geometry/geometry.go:172-211 | a whole polygon and a square reference for which the snapped boundary is snapped again to another, with a library that reads and writes them and meets the round-trip hypothesis |
| Snapping.ThirdPassChangesNothing | backend/internal/geometry/geometry.go:190-198 | whole rings: moving every coordinate three times is moving it twice |
| Snapping.ThirdSnapChangesNothing | backend/internal/geometry/geometry.go:172-211 | the whole operation, if encoded geometry decodes to itself or not at all: snapping what was snapped twice succeeds, returns it as it is and records no change |
| Snapping.SnappedRingDrift | backend/internal/geometry/geometry.go:190-198 | a snapped ring is closed, as long as before, and its area has changed by at most t·P + n·t²/2 |
| Snapping.SnappedPolygonDrift | backend/internal/geometry/geometry.go:190-198 | the same for moved rings with holes, summed |
| Snapping.SnappedAreaDrift | backend/internal/geometry/geometry.go:172-211 | the whole operation, if encoded geometry decodes to itself or not at all: the polygon returned has an area within the rings' drift of the candidate's, and is the candidate without a tolerance |
| Snapping.SnappedIsMoved | backend/internal/geometry/geometry.go:190-210 | under the same hypothesis the snap succeeds exactly when the moved rings are a valid, accepted boundary, and returns just those |
| Snapping.SnapToReferences | backend/internal/geometry/geometry.go:172-211 | the whole operation: collecting, moving each coordinate once in order, and both rejections |
| SnapMeaning.SnapGoesToNearest | backend/internal/geometry/geometry.go:177-236 | in terms of the reference polygons: a coordinate goes to a nearest of all their vertices if one is within tolerance, else to a nearest of all their edge points if one is, else it stays |
| SnapMeaning.SnapMeans | backend/internal/geometry/geometry.go:172-211 | what a snap returns: the encoding of the moved rings, what it reads back as, and the record of exactly the moved coordinates in visiting order; without a tolerance the candidate as it is |
| SnapMeaning.VerticesJoin | backend/internal/geometry/geometry.go:179-188 | vertices are collected ring by ring in order |
| SnapMeaning.EdgesOfRing | backend/internal/geometry/geometry.go:181-186 | a ring's edges are its consecutive pairs |
| Snapping.EvidenceIsExact | backend/internal/geometry/geometry.go:189-198 | the recorded changes are exactly the moved coordinates, each with where it went and how far |
| Topology.DetectTopology | backend/internal/geometry/geometry.go:269-309 | the loop over the sorted neighbours computes the findings, or fails when an overlay fails |
| Reports.ReportIsExact | backend/internal/geometry/geometry.go:269-327 | from the overlay library's answers and plain numbers: an overlap exactly for an intersection area above 0.000001 and t²/10000, a gap exactly for a base distance up to t and a candidate distance above it, a dangling edge exactly for a candidate distance and a contact length up to t, with the area, the distance and t less the length as magnitudes, each for the lowest neighbour with its evidence |
| Reports.ReportIsOrdered | backend/internal/geometry/geometry.go:269-309 | reports go by parcel and for one parcel by overlap, gap, dangling edge |
| Reports.ReportedExactlyWhen | backend/internal/geometry/geometry.go:273-298 | there is a report if and only if every overlay with a neighbour succeeds |
| Topology.DeduplicateFindings | backend/internal/geometry/geometry.go:315-327 | the loop keeps the first finding of each key |
| Topology.DeduplicationKeepsFirsts | backend/internal/geometry/geometry.go:315-327 | what is kept is exactly the first finding of each key, with distinct keys |
| Topology.KeyIsInjective | backend/internal/geometry/geometry.go:319 | equal keys mean equal type and equal evidence |
| Topology.OrderDoesNotMatter | backend/internal/geometry/geometry.go:269-309 | neighbours with distinct identifiers in any order give the same report |
| Topology.ReportIsCanonical | backend/internal/geometry/geometry.go:269-309 | reports are ordered by parcel, name each type and evidence once, and lose no type and evidence found |
| Topology.KeptForLowest | backend/internal/geometry/geometry.go:315-327 | a kept finding belongs to the lowest parcel with its type and evidence |
| Topology.AtMostOneGap | backend/internal/geometry/geometry.go:287-292 | since gap evidence is always the whole boundary, a report has at most one gap |
| Topology.OwnGapReportedExactly | backend/internal/geometry/geometry.go:287-292 | a neighbour's own gap is reported if and only if no neighbour with a lower identifier has one |
| Topology.GapExcludesDangling | backend/internal/geometry/geometry.go:287-305 | no neighbour has both a gap and a dangling edge |
| Hashing.ComputeHash | backend/internal/geometry/geometry.go:118-125 | the loop frames the parts in order |
| Hashing.HashJoins | backend/internal/geometry/geometry.go:118-125 | framing joins: the framing of two lists is that of the one followed by that of the other |
| Hashing.InputIsFramed | backend/internal/service/topology_conflict_service.go:64-72 | the hashed input is, each followed by a zero, boundary, proposal, coordinate system, tolerance text, algorithm version, and each neighbour's identifier and boundary |
| Hashing.DecimalIsRead | backend/internal/service/topology_conflict_service.go:72 | identifiers are written in decimal digits without a leading zero |
| Hashing.HashIsInjective | backend/internal/geometry/geometry.go:118-125 | lists of NUL-free parts with equal framed input are equal |
| Hashing.RequestHashIdentifies | backend/internal/service/topology_conflict_service.go:36-36 | equal request hashes if and only if equal proposal and tolerance text |
| Hashing.InputHashIdentifies | backend/internal/service/topology_conflict_service.go:64-73 | equal input hashes if and only if equal boundary, proposal, coordinate system, tolerance text and neighbour list |
| Identifiers.UniqueSortedIDs | backend/internal/service/topology_conflict_service.go:290-299 | sorting and compacting in place yields the canonical list in the front of the slice |
| Identifiers.CompactInPlace | backend/internal/service/topology_conflict_service.go:292-297 | the write position never passes the read position: nothing unread is overwritten |
| Identifiers.CanonicalIsASet | backend/internal/service/topology_conflict_service.go:290-299 | two lists have the same canonical form if and only if they have the same members |
| Identifiers.NormalizeParcelIDs | frontend/src/types/topology-conflict.ts:26-48 | the reader keeps the acceptable identifiers, each once |
| Identifiers.ReadExactly | frontend/src/types/topology-conflict.ts:40-46 | what is read is each integer from 1 to 2^53 - 1 among the entries, once |
| Identifiers.StoredListIsReadBack | frontend/src/types/topology-conflict.ts:39-47 | a stored canonical list is read back as it was |
| Identifiers.ReadingIsIdentity | frontend/src/types/topology-conflict.ts:39-47 | reading distinct positive safe integers changes nothing |
| Identifiers.NormalizingTwice | frontend/src/types/topology-conflict.ts:39-47 | reading is idempotent |
| Identifiers.ReadingKeepsFirsts | frontend/src/types/topology-conflict.ts:40-46 | first occurrences, in order |
| Redaction.Scrub | backend/internal/service/support_service.go:175-204 | the in-place walk computes the scrubbed tree |
| Redaction.SensitiveExactly | backend/internal/service/support_service.go:177-185 | a key is sensitive exactly when one of the nine tokens is written in it, in any case and with a hyphen or space for an underscore |
| Redaction.ScrubbingMasks | backend/internal/service/support_service.go:175-204 | every sensitive key at every surviving depth holds the marker; everything else is unchanged |
| Redaction.MaskedIsFixed | backend/internal/service/support_service.go:175-204 | scrubbing changes nothing if and only if everything sensitive is already masked |
| Redaction.SecretsAreForgotten | backend/internal/service/support_service.go:175-204 | trees that differ only under sensitive keys scrub to the same tree |
| RateLimiting.RateLimiter.Allow | backend/internal/middleware/auth.go:50-71 | one call, sweep included, is one step of the limiter's state |
| Windows.DecidedByTheCalls | backend/internal/middleware/auth.go:61-70 | the exact decision from the call list alone: windows open at a key's first call after the window before has ended, and a call is allowed if and only if fewer than limit calls of its key came before it in its window |
| Windows.RefusedOnlyWhenFull | backend/internal/middleware/auth.go:65-67 | a call is refused only when limit calls of its own key were allowed in the closed interval of one window up to it |
| Windows.RefusalsLeaveNoTrace | backend/internal/middleware/auth.go:65-67 | without a refused call every other call gets the same answer |
| RateLimiting.SweepingIsInvisible | backend/internal/middleware/auth.go:53-64 | for times that never go back, the limiter answers as one that never deletes an entry |
| RateLimiting.AllowedCallsAreBounded | backend/internal/middleware/auth.go:50-71 | over every call sequence on any keys, any closed interval as long as the window contains at most 2·limit - 1 allowed calls of a key |
| Windows.EntriesAreRecent | backend/internal/middleware/auth.go:53-60 | after any chronological run, every stored entry ended at most one window before the last call |
| RateLimiting.BoundIsReached | backend/internal/middleware/auth.go:50-71 | and that many can happen |
| RateLimiting.NothingAllowedBelowOne | backend/internal/middleware/auth.go:65-67 | a limit below one allows nothing and stores nothing |

## Left out

- HTTP handlers, routing, middleware other than the rate limiter, tokens, password hashing, configuration, start-up and seeding, and the web client other than the reader of identifier lists.
- SQL, migrations and triggers: a table is a map with a unique-value check, a conditional update and fresh identifiers; a transaction is one atomic step, as in the serialisable case. Its inner order shows in `Services`, not to other calls.
- Services.CadastralService.DetectConflicts: the contract is that of the uninterrupted call; what other calls can do between its steps is in `Calls` and `Interleaving`, since a method body has no other threads.
- IEEE rounding: coordinates, areas and tolerances are reals. Distances are kept squared, so a recorded change holds the square of the distance the source reports.
- The overlay library (decoding, validity, intersection, distance, boundary, encoding) is abstract. A polygon's area is its outer ring's area less its holes', by the same shoelace sum.
- Bounding boxes, severity labels, explanations and error messages: read by no decision modelled here.
- JSON and GeoJSON text: identifier lists are sequences, suggestions and snapshots are values; the errors for undecodable stored text cannot arise. That encoded geometry decodes to itself or not at all is a hypothesis (`Boundaries.RoundTrips`) of Snapping.SnappedIsMoved, SnappedAreaDrift, ThirdSnapChangesNothing and Provenance.AppliedAreaDrift, and of nothing else; `SnappingExample.FourRoundTrips` gives a library that meets it. A library that rounds what it writes does not.
- Identifiers.NormalizeParcelIDs: starts after the text is parsed and each entry converted to a number, because both are the language's own; an entry that is no integer is `NotInteger`.
- Hashing.HashIsInjective: SHA-256 is represented by the bytes it is given, that is, taken to have no collisions; Idempotence.AnswersAgree and `Reproducibility` assume that tolerances, decodable texts and coordinate-system names contain no NUL.
- Trimming and upper-casing of submitted text: requests carry the trimmed text. A blank request identifier is the empty one.
- Unsigned 64-bit width: identifiers, versions and counters do not overflow. The key length is counted in characters where the source counts bytes.
- Redaction.Scrub: the walk rebuilds the tree where the source overwrites it, so aliasing within one decoded tree (which has none) is not modelled. Characters whose lower case is no token's letter are not folded, which no result can tell.
- Identifiers.SortInPlace and Topology.SortNeighbours stand for the library's sort; its algorithm is not modelled.
- The rate limiter's retry hint reads the wall clock; times are assumed to be after the zero instant.
- Creation and update times, list queries, filters and pagination, user accounts and reading the audit log.
- Two runs with the same input hash and different keys are not merged: the code is idempotent per actor and key only.
