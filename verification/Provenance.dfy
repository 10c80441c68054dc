/**
  What every run can account for: where each stored detection run, each derived proposal and
  each replacement link came from.
 */
module Provenance {
  import opened Options
  import opened Boundaries
  import opened Records
  import opened AuditTrail
  import opened Invariants
  import opened Requests
  import opened Calls
  import opened Transactions
  import opened Interleaving
  import opened Histories
  import opened Detections
  import opened Analyses
  import opened SnapMeaning
  import opened Derivations
  import opened ReplacementLinks
  import opened Planar
  import opened Idempotence
  import Snapping
  import Reports
  import Topology
  import Hashing

  ghost predicate Accounted(lib: Library, db: Db) {
    RunsMade(lib, db) && DerivationsSound(db) && LinksLive(db.observations)
  }

  /** What a call knows of the rows it builds on, beyond `CallSound`. */
  ghost predicate Grounded(lib: Library, db: Db, call: Call) {
    DetectionKnown(lib, db, call.progress) && Derives(db, call.actor, call.progress) && TargetLive(db, call.progress)
  }

  ghost predicate SystemAccounted(lib: Library, s: System) {
    Accounted(lib, s.db) && forall i | 0 <= i < |s.calls| :: Grounded(lib, s.db, s.calls[i])
  }

  lemma GroundedStays(lib: Library, a: Db, b: Db, call: Call)
    requires Follows(a, b) && LegalLog(b.audits) && Grounded(lib, a, call)
    ensures Grounded(lib, b, call)
  {
    hide Follows, LegalLog, DetectionKnown, Derives, TargetLive;
    DetectionKnownStays(lib, a, b, call.progress);
    DerivesStays(a, b, call.actor, call.progress);
    LiveStays(a, b);
  }

  lemma ReadsAreGrounded(lib: Library, db: Db, call: Call)
    requires Sound(lib, db) && Fits(lib, call.req, call.progress) && CallSound(lib, db, call) && Grounded(lib, db, call) && !call.progress.Ready?
    ensures Grounded(lib, db, call.(progress := Advance(lib, db, call.actor, call.req, call.progress).1))
  {
    hide Sound, CallSound, Fits, Advance, DetectionKnown, Derives, TargetLive, Fresh;
    assert call == Call(call.actor, call.req, call.progress);
    ReadsKnowDetection(lib, db, call.actor, call.req, call.progress);
    ReadsDerive(lib, db, call.actor, call.req, call.progress);
    ReadsAreFresh(lib, db, call.actor, call.req, call.progress);
  }

  lemma CommitIsAccounted(lib: Library, db: Db, actor: Actor, req: Request, plan: Plan)
    requires plan.DetectPlan? ==> req.DetectConflicts?
    requires Sound(lib, db) && PlanSound(lib, db, actor, req, plan) && Accounted(lib, db) && Grounded(lib, db, Call(actor, req, Ready(plan)))
    requires Commit(db, actor, req, plan).Some?
    ensures Accounted(lib, Commit(db, actor, req, plan).value)
  {
    hide Sound, PlanSound, Commit, RunsMade, DerivationsSound, LinksLive, DetectionKnown, Derives, TargetLive;
    CommitKeepsRunsMade(lib, db, actor, req, plan);
    CommitDerives(lib, db, actor, req, plan);
    CommitKeepsLinksLive(lib, db, actor, req, plan);
  }

  lemma UnplannedIsGrounded(lib: Library, db: Db, call: Call)
    requires call.progress.Answered? || call.progress.TransactionFailed? || call.progress.Started?
    ensures Grounded(lib, db, call)
  {
  }

  lemma StepIsAccounted(lib: Library, db: Db, call: Call)
    requires Sound(lib, db) && Fits(lib, call.req, call.progress) && CallSound(lib, db, call) && Accounted(lib, db) && Grounded(lib, db, call)
    ensures var (d, p) := Advance(lib, db, call.actor, call.req, call.progress);
      Accounted(lib, d) && Grounded(lib, d, call.(progress := p))
  {
    hide Sound, CallSound, Advance, Commit, PlanSound, Confirmation, Accounted, Grounded;
    if call.progress.Ready? {
      var plan := call.progress.plan;
      assert call == Call(call.actor, call.req, Ready(plan));
      CommitStep(lib, db, call.actor, call.req, plan);
      ReadyOrAnswered(lib, db, call.actor, call.req, call.progress);
      var (d, p) := Advance(lib, db, call.actor, call.req, call.progress);
      UnplannedIsGrounded(lib, d, call.(progress := p));
      if Commit(db, call.actor, call.req, plan).Some? {
        CommitIsAccounted(lib, db, call.actor, call.req, plan);
      }
    } else {
      ReadsAreGrounded(lib, db, call);
    }
  }

  lemma CallsStayGrounded(lib: Library, a: Db, b: Db, calls: seq<Call>)
    requires Follows(a, b) && LegalLog(b.audits)
    ensures forall k | 0 <= k < |calls| && Grounded(lib, a, calls[k]) :: Grounded(lib, b, calls[k])
  {
    hide Follows, Grounded, LegalLog;
    forall k | 0 <= k < |calls| && Grounded(lib, a, calls[k]) ensures Grounded(lib, b, calls[k]) {
      GroundedStays(lib, a, b, calls[k]);
    }
  }

  lemma SkippingIsAccounted(lib: Library, db: Db, d: Db)
    requires d == db.(next := d.next) && Accounted(lib, db) && Follows(db, d) && LegalLog(d.audits)
    ensures Accounted(lib, d)
  {
    hide Follows, LegalLog, MadeFrom, DerivedFrom;
    forall r | r in d.runs ensures exists b :: MadeFrom(lib, d, d.runs[r], b) {
      var b :| MadeFrom(lib, db, db.runs[r], b);
      MadeFromStays(lib, db, d, db.runs[r], b);
    }
    DerivationsStay(db, d);
  }

  lemma MoveIsAccounted(lib: Library, s: System, move: Move)
    requires WellPlaced(lib, s) && SystemSound(lib, s) && SystemAccounted(lib, s)
    ensures SystemAccounted(lib, Do(lib, s, move))
  {
    hide Sound, CallSound, Advance, Fits, Accounted, Grounded, Follows, LegalLog;
    var t := Do(lib, s, move);
    MoveKeepsSound(lib, s, move);
    LogIsLegal(lib, t.db);
    CallsStayGrounded(lib, s.db, t.db, s.calls);
    match move
    case Send(actor, req) => UnplannedIsGrounded(lib, t.db, Call(actor, req, Started));
    case Step(i) =>
      if i < |s.calls| {
        StepIsAccounted(lib, s.db, s.calls[i]);
      }
    case SkipIDs(_) => SkippingIsAccounted(lib, s.db, t.db);
  }

  lemma LogIsLegal(lib: Library, db: Db)
    requires Sound(lib, db)
    ensures LegalLog(db.audits)
  {
    hide LegalLog;
    SoundLedger(lib, db);
  }

  lemma {:induction false} EveryRunIsAccounted(lib: Library, moves: seq<Move>)
    ensures SystemAccounted(lib, Run(lib, moves))
  {
    hide SystemAccounted, SystemSound, Do;
    if |moves| > 0 {
      EveryRunIsAccounted(lib, moves[..|moves| - 1]);
      EveryRunIsSound(lib, moves[..|moves| - 1]);
      MoveIsAccounted(lib, Run(lib, moves[..|moves| - 1]), moves[|moves| - 1]);
    } else {
      NothingToAccountFor(lib);
    }
  }

  lemma NothingToAccountFor(lib: Library)
    ensures SystemAccounted(lib, System(EMPTY_DB, []))
  {
  }

  // --- Derived proposals ---------------------------------------------------------------------------

  /**
    After any run, the proposal that a conflict's applied suggestion became has the suggested geometry,
    on the parcel, observations and tolerance of the proposal the conflict was found in; its author is
    whoever applied the suggestion; it was born one version after one its source has had; and its area
    delta is that of the suggestion against a boundary the parcel has had.
   */
  lemma DerivedProposalsAreSuggestions(lib: Library, moves: seq<Move>, c: nat)
    requires c in Replay(Run(lib, moves).db.audits).applied
    ensures var db := Run(lib, moves).db; var l := Replay(db.audits); var p := l.applied[c];
      && c in db.conflicts && p in db.proposals && p in l.proposals && db.conflicts[c].detection.proposalID in db.proposals
      && var draft, source := db.proposals[p], db.proposals[db.conflicts[c].detection.proposalID];
         && draft.geometry == db.conflicts[c].detection.suggestion.snapped && draft.parcelID == source.parcelID
         && draft.observationIDs == source.observationIDs && draft.tolerance == source.tolerance
         && Applier(db.audits, c) == Some(draft.createdBy)
         && FollowsVersion(db, db.conflicts[c].detection.proposalID, l.proposals[p].born.version)
         && source.parcelID in db.parcels && source.parcelID in l.parcels
         && 1 <= draft.baseVersion <= db.parcels[source.parcelID].version == |l.parcels[source.parcelID]|
         && draft.areaDelta == AreaOf(lib, db.conflicts[c].detection.suggestion.snapped)
                               - AreaOf(lib, l.parcels[source.parcelID][draft.baseVersion - 1].boundary)
  {
    hide Run, Replay, AreaOf, Applier, FollowsVersion, RunsMade, LinksLive, Grounded;
    EveryRunIsAccounted(lib, moves);
    var db := Run(lib, moves).db;
    assert DerivedFrom(db, c, Replay(db.audits).applied[c]);
    DeltasAreHistorical(lib, moves, Replay(db.audits).applied[c]);
  }

  // --- Suggestions and areas ------------------------------------------------------------------------

  /** Every stored run was made from rows that were stored when it read them. */
  lemma EveryDetectionWasMade(lib: Library, moves: seq<Move>, r: nat) returns (b: Basis)
    requires r in Run(lib, moves).db.runs
    ensures MadeFrom(lib, Run(lib, moves).db, Run(lib, moves).db.runs[r], b)
  {
    hide Run, MadeFrom, DerivationsSound, LinksLive, Grounded;
    EveryRunIsAccounted(lib, moves);
    var db := Run(lib, moves).db;
    b :| MadeFrom(lib, db, db.runs[r], b);
  }

  /** The suggestion a basis leads to. */
  ghost predicate SuggestionMade(lib: Library, b: Basis, s: Suggestion) {
    Geometric(lib, b.proposal, b.parcel) && AllParse(lib, b.neighbours) &&
    var snap := SnapMade(lib, b.proposal, b.parcel, b.neighbours, b.tolerance);
    snap.Some? && s == Suggestion(snap.value.encoded, snap.value.changes, b.tolerance, b.parcel.coordinateSystem,
                                  HashMade(lib, b.proposal, b.parcel, b.neighbours, b.tolerance))
  }

  /** What a basis leads to: the suggestion, and one stored conflict for each finding of the report on the snapped polygon, in order. */
  ghost predicate FindingsMade(lib: Library, b: Basis, detections: seq<Detection>, suggestion: Suggestion) {
    SuggestionMade(lib, b, suggestion) &&
    var snap := SnapMade(lib, b.proposal, b.parcel, b.neighbours, b.tolerance).value;
    var report := ReportMade(lib, b.parcel, b.neighbours, snap.polygon, b.tolerance);
    report.Some? && DescribesAll(detections, report.value, b.proposal, b.parcel, suggestion, b.now)
  }

  lemma YieldedFindings(lib: Library, b: Basis, proposalID: nat, detections: seq<Detection>, requestHash: string, inputHash: string)
    returns (suggestion: Suggestion)
    requires Yields(lib, b, proposalID, detections, requestHash, inputHash)
    ensures FindingsMade(lib, b, detections, suggestion) && suggestion.inputHash == inputHash
  {
    hide Parsed, Analysed, Snapping.Snapped, Topology.Detected, Hashing.InputHash, DescribesAll;
    AnalysisConcludes(lib, b.proposal, b.parcel, b.neighbours, b.tolerance, b.now);
    var snap := SnapMade(lib, b.proposal, b.parcel, b.neighbours, b.tolerance).value;
    suggestion := Suggestion(snap.encoded, snap.changes, b.tolerance, b.parcel.coordinateSystem,
                             HashMade(lib, b.proposal, b.parcel, b.neighbours, b.tolerance));
  }

  /**
    After any run, every stored run was made from rows that were stored when read, its neighbours being all there
    were, and its conflicts are the findings of the report on the proposal snapped against exactly the parcel's
    boundary and those neighbours', in order, each with the parcel and the finding's neighbour as participants.
   */
  lemma DetectionsAreFindings(lib: Library, moves: seq<Move>, r: nat) returns (b: Basis, suggestion: Suggestion)
    requires r in Run(lib, moves).db.runs
    ensures var db := Run(lib, moves).db; var run := db.runs[r];
      && WasRead(lib, db, b) && ResultsStored(db, run) && FindingsMade(lib, b, Results(db, run), suggestion)
      && run.proposalID == b.proposal.id && run.inputHash == suggestion.inputHash
      && run.requestHash == Hashing.Hash([Hashing.Decimal(b.proposal.id), lib.toleranceText(b.tolerance)])
  {
    hide Run, WasRead, FindingsMade, Analysed, InputOf, Hashing.InputHash, Parsed, Hashing.Hash, Hashing.Decimal;
    b := EveryDetectionWasMade(lib, moves, r);
    var db := Run(lib, moves).db;
    suggestion := YieldedFindings(lib, b, db.runs[r].proposalID, Results(db, db.runs[r]), db.runs[r].requestHash, db.runs[r].inputHash);
  }

  /**
    After any run, every stored suggestion is its own proposal's geometry snapped against exactly the boundaries of
    the parcel and the neighbours that were read, at the recorded tolerance.
   */
  lemma SuggestionsAreSnaps(lib: Library, moves: seq<Move>, c: nat) returns (b: Basis)
    requires c in Run(lib, moves).db.conflicts
    ensures var db := Run(lib, moves).db; var d := db.conflicts[c].detection;
      && WasRead(lib, db, b) && SuggestionMade(lib, b, d.suggestion)
      && d.proposalID in db.proposals && d.proposalID == b.proposal.id && db.proposals[d.proposalID].geometry == b.proposal.geometry
  {
    hide Run, Snapping.Snapped, Parsed, SeenParcel, SnapMade, ReportMade, HashMade, AllParse, Sound, Follows, ListsNeighbours;
    var db := Run(lib, moves).db;
    var r, k := EveryConflictHasOneRun(lib, moves, c);
    var suggestion;
    b, suggestion := DetectionsAreFindings(lib, moves, r);
    assert Results(db, db.runs[r])[k] == db.conflicts[c].detection;
  }

  /**
    Over every run, applying a suggestion changes a boundary's area by little: the derived proposal's area
    differs from its source's by at most the drift of the source's rings at the tolerance of the detection,
    and not at all when snapping was off.
   */
  lemma AppliedAreaDrift(lib: Library, moves: seq<Move>, c: nat)
    requires RoundTrips(lib) && c in Replay(Run(lib, moves).db.audits).applied
    ensures var db := Run(lib, moves).db; var p := Replay(db.audits).applied[c];
      && c in db.conflicts && p in db.proposals && db.conflicts[c].detection.proposalID in db.proposals
      && var source, t := db.proposals[db.conflicts[c].detection.proposalID], db.conflicts[c].detection.suggestion.tolerance;
         && Parsed(lib, source.geometry).Some?
         && var change := AreaOf(lib, db.proposals[p].geometry) - AreaOf(lib, source.geometry);
            if t <= 0.0 then change == 0.0
            else Within(change, Snapping.TotalDrift(Parsed(lib, source.geometry).value.rings, t))
  {
    hide Run, Replay, AreaOf, Applier, FollowsVersion, Parsed, Snapping.TotalDrift, Within, RoundTrips, WasRead, SuggestionMade;
    DerivedProposalsAreSuggestions(lib, moves, c);
    var b := SuggestionsAreSnaps(lib, moves, c);
    var db := Run(lib, moves).db;
    DerivedParses(lib, moves, Replay(db.audits).applied[c]);
    SuggestionDrift(lib, b, db.conflicts[c].detection.suggestion);
  }

  lemma SuggestionDrift(lib: Library, b: Basis, s: Suggestion)
    requires RoundTrips(lib) && SuggestionMade(lib, b, s) && Parsed(lib, s.snapped).Some?
    ensures Parsed(lib, b.proposal.geometry).Some?
    ensures var change := AreaOf(lib, s.snapped) - AreaOf(lib, b.proposal.geometry);
      if s.tolerance <= 0.0 then change == 0.0
      else Within(change, Snapping.TotalDrift(Parsed(lib, b.proposal.geometry).value.rings, s.tolerance))
  {
    hide AreaOf, Parsed, Snapping.Snapped, Snapping.TotalDrift, Within, RoundTrips, HashMade, AllParse;
    SnapAreaDrift(lib, b.proposal.geometry, SnapsAgainst(lib, b.parcel, b.neighbours), b.tolerance);
  }

  /** Whatever is stored as a proposal parses. */
  lemma DerivedParses(lib: Library, moves: seq<Move>, p: nat)
    requires p in Run(lib, moves).db.proposals
    ensures Parsed(lib, Run(lib, moves).db.proposals[p].geometry).Some?
  {
    hide Run, Sound, Parsed, SeenProposal, SeenParcel, SeenObservation, SeenConflict, BoundarySound;
    EveryRunIsSound(lib, moves);
    RowsAreSeen(lib, Run(lib, moves).db);
    StoredDraftParses(lib, Run(lib, moves).db, Run(lib, moves).db.proposals[p]);
  }

  lemma SnapAreaDrift(lib: Library, raw: string, references: seq<Polygon>, tolerance: real)
    requires RoundTrips(lib) && Parsed(lib, raw).Some? && Snapping.Snapped(lib, Parsed(lib, raw).value, references, tolerance).Some?
    requires Parsed(lib, Snapping.Snapped(lib, Parsed(lib, raw).value, references, tolerance).value.encoded).Some?
    ensures var polygon := Parsed(lib, raw).value;
      var change := AreaOf(lib, Snapping.Snapped(lib, polygon, references, tolerance).value.encoded) - AreaOf(lib, raw);
      if tolerance <= 0.0 then change == 0.0 else Within(change, Snapping.TotalDrift(polygon.rings, tolerance))
  {
    hide Within, Snapping.TotalDrift, Snapping.Snapped, RingsAccepted, PolygonArea, Parsed;
    var polygon := Parsed(lib, raw).value;
    EncodedParses(lib, polygon, references, tolerance);
    Snapping.SnappedAreaDrift(lib, polygon, references, tolerance);
  }

  /** What a snap writes is read back as the polygon it was. */
  lemma EncodedParses(lib: Library, polygon: Polygon, references: seq<Polygon>, tolerance: real)
    requires RoundTrips(lib) && lib.valid(polygon) && RingsAccepted(polygon.rings) && PolygonArea(polygon.rings) > 0.0
    requires Snapping.Snapped(lib, polygon, references, tolerance).Some?
    requires Parsed(lib, Snapping.Snapped(lib, polygon, references, tolerance).value.encoded).Some?
    ensures var result := Snapping.Snapped(lib, polygon, references, tolerance).value;
      Parsed(lib, result.encoded) == Some(result.polygon)
  {
    hide RingsAccepted, PolygonArea, Snapping.SnapRings, Snapping.ChangesAlong, Snapping.RingsOf, Snapping.SegmentsOf, Flatten;
  }

  // --- Coordinates and findings of stored detections ---------------------------------------------------

  /**
    After any run, a coordinate of a proposal with a vertex of the parcel's or a neighbour's boundary within the
    tolerance was sent to a nearest such vertex, else to a nearest point of their edges within it, else left; and
    the stored changes say so.
   */
  lemma StoredMovesAreNearest(lib: Library, moves: seq<Move>, c: nat, p: Point) returns (b: Basis, q: Point)
    requires c in Run(lib, moves).db.conflicts && Run(lib, moves).db.conflicts[c].detection.suggestion.tolerance > 0.0
    ensures var db := Run(lib, moves).db; var d := db.conflicts[c].detection;
      && WasRead(lib, db, b) && SuggestionMade(lib, b, d.suggestion) && b.tolerance == d.suggestion.tolerance
      && d.proposalID == b.proposal.id && d.proposalID in db.proposals && db.proposals[d.proposalID].geometry == b.proposal.geometry
      && (p in Flatten(Parsed(lib, b.proposal.geometry).value.rings) ==>
            var references := SnapsAgainst(lib, b.parcel, b.neighbours);
            && SnapsTo(references, p, b.tolerance, q)
            && (q != p ==>
                  Snapping.SnapChange(p, q, if VertexWithin(references, p, b.tolerance) then Snapping.Vertex else Snapping.Edge,
                                      DistanceSquared(p, q)) in d.suggestion.changes)
            && (q == p ==> forall change | change in d.suggestion.changes :: change.before != p))
  {
    hide Run, Parsed, Snapping.Snapped, WasRead, SnapsTo, Flatten, VertexWithin, DistanceSquared, Snap, AllParse, HashMade;
    b := SuggestionsAreSnaps(lib, moves, c);
    var references, rings := SnapsAgainst(lib, b.parcel, b.neighbours), Parsed(lib, b.proposal.geometry).value.rings;
    q := Snap(references, p, b.tolerance);
    SnapGoesToNearest(references, p, b.tolerance);
    SnapMeans(lib, Parsed(lib, b.proposal.geometry).value, references, b.tolerance);
    if p in Flatten(rings) {
      RecordedMoves(references, Flatten(rings), b.tolerance, p);
    }
  }

  lemma RecordedMoves(references: seq<Polygon>, points: seq<Point>, t: real, p: Point)
    requires p in points
    ensures var q, changes := Snap(references, p, t), RecordsOf(references, points, t);
      && (q != p ==>
            Snapping.SnapChange(p, q, if VertexWithin(references, p, t) then Snapping.Vertex else Snapping.Edge, DistanceSquared(p, q)) in changes)
      && (q == p ==> forall change | change in changes :: change.before != p)
  {
    hide Snap, VertexWithin, DistanceSquared, RecordsOf;
    var q := Snap(references, p, t);
    if q != p {
      RecordedMembers(references, points, t, RecordOf(references, p, t)[0]);
    } else {
      forall change | change in RecordsOf(references, points, t) ensures change.before != p {
        RecordedMembers(references, points, t, change);
      }
    }
  }

  /** A stored detection is of this finding against this parcel. */
  ghost predicate IsOf(d: Detection, f: Topology.Finding, parcelID: nat) {
    && d.kind == f.kind && d.geometry == f.evidence && d.magnitude == f.magnitude
    && forall id :: id in d.parcelIDs <==> id == parcelID || id == f.parcelID
  }

  /**
    After any run, a run's stored conflicts are exactly the findings that the snapped polygon warrants against the
    neighbours read, each for the lowest-numbered neighbour with its kind and evidence. The snapped polygon is
    the one the stored suggestion reads back as, and the proposal's own when the tolerance is not positive.
   */
  lemma StoredFindingsAreWarranted(lib: Library, moves: seq<Move>, r: nat) returns (b: Basis, snapped: Polygon)
    requires r in Run(lib, moves).db.runs
    ensures var db := Run(lib, moves).db; var run := db.runs[r];
      && WasRead(lib, db, b) && run.proposalID == b.proposal.id && ResultsStored(db, run)
      && Geometric(lib, b.proposal, b.parcel) && AllParse(lib, b.neighbours)
      && (b.tolerance <= 0.0 ==> snapped == Parsed(lib, b.proposal.geometry).value)
      && (b.tolerance > 0.0 ==> forall d | d in Results(db, run) :: Parsed(lib, d.suggestion.snapped) == Some(snapped))
      && forall f: Topology.Finding | f.parcelID != b.parcel.id ::
           (exists d :: d in Results(db, run) && IsOf(d, f, b.parcel.id)) <==> Warranted(lib, b, snapped, f)
  {
    hide Run, Parsed, Snapping.Snapped, Topology.Detected, WasRead, DescribesAll, HashMade, IsOf, Warranted, RecordsOf, AllParse;
    var suggestion;
    b, suggestion := DetectionsAreFindings(lib, moves, r);
    var db := Run(lib, moves).db;
    var run := db.runs[r];
    var snap := SnapMade(lib, b.proposal, b.parcel, b.neighbours, b.tolerance).value;
    snapped := snap.polygon;
    var report := ReportMade(lib, b.parcel, b.neighbours, snapped, b.tolerance).value;
    SnapMeans(lib, Parsed(lib, b.proposal.geometry).value, SnapsAgainst(lib, b.parcel, b.neighbours), b.tolerance);
    AllOfOneSuggestion(Results(db, run), report, b, suggestion);
    NeighboursInOrder(lib, db, b);
    forall g | g in report ensures g.parcelID != b.parcel.id {
      ReportedExactly(lib, b, snapped, g);
    }
    forall f: Topology.Finding | f.parcelID != b.parcel.id
      ensures (exists d :: d in Results(db, run) && IsOf(d, f, b.parcel.id)) <==> Warranted(lib, b, snapped, f)
    {
      ReportedExactly(lib, b, snapped, f);
      StoredExactly(Results(db, run), report, b, suggestion, f);
    }
  }

  ghost predicate Warranted(lib: Library, b: Basis, snapped: Polygon, f: Topology.Finding)
    requires Parsed(lib, b.parcel.boundary).Some? && AllParse(lib, b.neighbours)
  {
    var base, references := Parsed(lib, b.parcel.boundary).value, Read(lib, b.neighbours);
    && (exists n :: n in references && Reports.Warrants(lib, base, snapped, n, b.tolerance, f))
    && Reports.LowestFor(lib, base, snapped, references, b.tolerance, f)
  }

  lemma NeighboursInOrder(lib: Library, db: Db, b: Basis)
    requires WasRead(lib, db, b)
    ensures forall i, j | 0 <= i < j < |b.neighbours| :: b.neighbours[i].id < b.neighbours[j].id
    ensures forall n | n in b.neighbours :: n.id != b.parcel.id
  {
    hide Sound, Follows, SeenParcel, SeenProposal, BoundarySound;
  }

  lemma ReportedExactly(lib: Library, b: Basis, snapped: Polygon, f: Topology.Finding)
    requires Parsed(lib, b.parcel.boundary).Some? && AllParse(lib, b.neighbours)
    requires forall i, j | 0 <= i < j < |b.neighbours| :: b.neighbours[i].id < b.neighbours[j].id
    requires forall n | n in b.neighbours :: n.id != b.parcel.id
    requires ReportMade(lib, b.parcel, b.neighbours, snapped, b.tolerance).Some?
    ensures f in ReportMade(lib, b.parcel, b.neighbours, snapped, b.tolerance).value <==> Warranted(lib, b, snapped, f)
    ensures f in ReportMade(lib, b.parcel, b.neighbours, snapped, b.tolerance).value ==> f.parcelID != b.parcel.id
  {
    hide Parsed, Topology.Detected, ReportMade, AllParse, Reports.LowestFor;
    FindingsAreWarranted(lib, b.parcel, b.neighbours, snapped, b.tolerance, f);
  }

  lemma AllOfOneSuggestion(ds: seq<Detection>, fs: seq<Topology.Finding>, b: Basis, suggestion: Suggestion)
    requires DescribesAll(ds, fs, b.proposal, b.parcel, suggestion, b.now)
    ensures forall d | d in ds :: d.suggestion == suggestion
  {
    assert forall k | 0 <= k < |ds| :: Describes(ds[k], fs[k], b.proposal, b.parcel, suggestion, b.now);
  }

  /** A stored conflict records the tolerance it was found at. */
  lemma ToleranceRecorded(lib: Library, db: Db, run: DetectionRun, b: Basis, i: nat)
    requires MadeFrom(lib, db, run, b) && i < |run.resultIDs|
    ensures Results(db, run)[i].suggestion.tolerance == b.tolerance
  {
    hide Parsed, WasRead, Analysed, InputOf, Hashing.InputHash, SnapMade, ReportMade, HashMade, DescribesAll, AllParse;
    var suggestion := YieldedFindings(lib, b, run.proposalID, Results(db, run), run.requestHash, run.inputHash);
    var snap := SnapMade(lib, b.proposal, b.parcel, b.neighbours, b.tolerance).value;
    AllOfOneSuggestion(Results(db, run), ReportMade(lib, b.parcel, b.neighbours, snap.polygon, b.tolerance).value, b, suggestion);
    assert Results(db, run)[i] in Results(db, run);
  }

  lemma StoredExactly(ds: seq<Detection>, fs: seq<Topology.Finding>, b: Basis, suggestion: Suggestion, f: Topology.Finding)
    requires DescribesAll(ds, fs, b.proposal, b.parcel, suggestion, b.now) && f.parcelID != b.parcel.id
    requires forall g | g in fs :: g.parcelID != b.parcel.id
    ensures (exists d :: d in ds && IsOf(d, f, b.parcel.id)) <==> f in fs
  {
    if f in fs {
      var k :| 0 <= k < |fs| && fs[k] == f;
      assert Describes(ds[k], fs[k], b.proposal, b.parcel, suggestion, b.now);
      assert IsOf(ds[k], f, b.parcel.id);
    }
    if d :| d in ds && IsOf(d, f, b.parcel.id) {
      var k :| 0 <= k < |ds| && ds[k] == d;
      assert Describes(ds[k], fs[k], b.proposal, b.parcel, suggestion, b.now);
      assert f.parcelID in d.parcelIDs;
      assert fs[k] == f;
    }
  }
}
