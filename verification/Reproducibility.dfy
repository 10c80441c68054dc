/** A detection is determined by what its input hash covers. */
module Reproducibility {
  import opened Boundaries
  import opened Records
  import opened Requests
  import opened Calls
  import opened Invariants
  import opened Detections
  import opened Provenance
  import Hashing
  import Snapping
  import Topology

  /** The neighbours' polygons depend on nothing but the hashed list of identifiers and boundaries. */
  lemma {:induction false} SameListSameReferences(lib: Library, a: seq<Parcel>, b: seq<Parcel>)
    requires BoundaryList(a) == BoundaryList(b)
    ensures References(lib, a) == References(lib, b)
  {
    hide Parsed;
    if |a| > 0 {
      var m := |a| - 1;
      assert BoundaryList(a)[m] == BoundaryList(b)[m];
      assert BoundaryList(a[..m]) == BoundaryList(a)[..m] && BoundaryList(b[..m]) == BoundaryList(b)[..m];
      SameListSameReferences(lib, a[..m], b[..m]);
    }
  }

  /** The same findings with the same suggestion; whose they are and when they were made may differ. */
  predicate SameFindings(a: seq<Detection>, b: seq<Detection>) {
    |a| == |b| && forall i | 0 <= i < |a| ::
      && a[i].kind == b[i].kind && a[i].geometry == b[i].geometry && a[i].magnitude == b[i].magnitude
      && a[i].inputHash == b[i].inputHash && a[i].suggestion == b[i].suggestion
  }

  /**
    Two detections at one tolerance with equal input hashes, for whatever proposals and parcels and at
    whatever times, fail alike or make the same findings in the same order with the same suggestion.
   */
  lemma SameHashSameFindings(lib: Library, p: Proposal, parcel: Parcel, ns: seq<Parcel>,
                             q: Proposal, other: Parcel, ms: seq<Parcel>, tolerance: real, now: int, later: int)
    requires Parsed(lib, parcel.boundary).Some? && Parsed(lib, p.geometry).Some?
    requires Parsed(lib, other.boundary).Some? && Parsed(lib, q.geometry).Some?
    requires Hashing.InputNulFree(InputOf(lib, p, parcel, ns, tolerance)) && Hashing.InputNulFree(InputOf(lib, q, other, ms, tolerance))
    requires Hashing.InputHash(InputOf(lib, p, parcel, ns, tolerance)) == Hashing.InputHash(InputOf(lib, q, other, ms, tolerance))
    ensures match (Analysed(lib, p, parcel, ns, tolerance, now), Analysed(lib, q, other, ms, tolerance, later))
      case (Ok(a), Ok(b)) => SameFindings(a, b)
      case (Err(a), Err(b)) => a == b
      case (_, _) => false
  {
    hide Parsed, Snapping.Snapped, Topology.Detected, Hashing.InputHash, Hashing.InputNulFree;
    Hashing.InputHashIdentifies(InputOf(lib, p, parcel, ns, tolerance), InputOf(lib, q, other, ms, tolerance));
    SameListSameReferences(lib, ns, ms);
  }

  // --- Over every run ------------------------------------------------------------------------

  /** Texts that decode, allowed coordinate systems and written tolerances contain no NUL. */
  ghost predicate PlainTexts(lib: Library) {
    && (forall s | NulIn(s) :: lib.decode(s).None? && !lib.systemAllowed(s))
    && (forall t :: Hashing.NulFree(lib.toleranceText(t)))
  }

  predicate NulIn(s: string) {
    !Hashing.NulFree(s)
  }

  lemma {:induction false} LoadedNeighboursParse(lib: Library, neighbours: seq<Parcel>)
    requires References(lib, neighbours).Some?
    ensures forall n | n in neighbours :: Parsed(lib, n.boundary).Some?
  {
    hide Parsed;
    if |neighbours| > 0 {
      LoadedNeighboursParse(lib, neighbours[..|neighbours| - 1]);
    }
  }

  /** Whatever a stored run was made from was free of NUL. */
  lemma BasisIsPlain(lib: Library, db: Db, run: DetectionRun, b: Basis)
    requires PlainTexts(lib) && MadeFrom(lib, db, run, b)
    ensures Hashing.InputNulFree(InputOf(lib, b.proposal, b.parcel, b.neighbours, b.tolerance))
  {
    hide Snapping.Snapped, Topology.Detected, Hashing.InputHash, SeenParcel, SeenProposal, Hashing.NulFree, PolygonArea;
    LoadedNeighboursParse(lib, b.neighbours);
    assert NulIn(b.parcel.boundary) ==> false;
    assert NulIn(b.proposal.geometry) ==> false;
    assert NulIn(b.parcel.coordinateSystem) ==> false;
    forall n | n in InputOf(lib, b.proposal, b.parcel, b.neighbours, b.tolerance).neighbours ensures Hashing.NulFree(n.1) {
      var k :| 0 <= k < |b.neighbours| && BoundaryList(b.neighbours)[k] == n;
      assert b.neighbours[k] in b.neighbours;
      assert NulIn(n.1) ==> false;
    }
  }

  /** Two stored runs with one input hash, made at one tolerance, list conflicts with the same findings in the same order. */
  lemma SameHashSameResults(lib: Library, moves: seq<Move>, r: nat, q: nat, b: Basis, c: Basis)
    requires PlainTexts(lib) && r in Run(lib, moves).db.runs && q in Run(lib, moves).db.runs
    requires var db := Run(lib, moves).db;
      && MadeFrom(lib, db, db.runs[r], b) && MadeFrom(lib, db, db.runs[q], c)
      && db.runs[r].inputHash == db.runs[q].inputHash && b.tolerance == c.tolerance
    ensures var db := Run(lib, moves).db; SameFindings(Results(db, db.runs[r]), Results(db, db.runs[q]))
  {
    hide Run, Parsed, Analysed, InputOf, Hashing.InputHash, Hashing.InputNulFree, WasRead, SameFindings, PlainTexts;
    var db := Run(lib, moves).db;
    BasisIsPlain(lib, db, db.runs[r], b);
    BasisIsPlain(lib, db, db.runs[q], c);
    SameHashSameFindings(lib, b.proposal, b.parcel, b.neighbours, c.proposal, c.parcel, c.neighbours, b.tolerance, b.now, c.now);
  }

  /**
    Over every run, two stored runs with equal input hashes, one conflict of each having been found at the
    same tolerance, list equally many conflicts, pairwise of the same kind, geometry, magnitude and suggestion.
   */
  lemma EqualInputsEqualConflicts(lib: Library, moves: seq<Move>, r: nat, q: nat, i: nat, j: nat)
    requires PlainTexts(lib) && r in Run(lib, moves).db.runs && q in Run(lib, moves).db.runs
    requires var db := Run(lib, moves).db;
      && db.runs[r].inputHash == db.runs[q].inputHash
      && ResultsStored(db, db.runs[r]) && ResultsStored(db, db.runs[q])
      && i < |db.runs[r].resultIDs| && j < |db.runs[q].resultIDs|
      && Results(db, db.runs[r])[i].suggestion.tolerance == Results(db, db.runs[q])[j].suggestion.tolerance
    ensures var db := Run(lib, moves).db; SameFindings(Results(db, db.runs[r]), Results(db, db.runs[q]))
  {
    hide Run, Parsed, Analysed, InputOf, Hashing.InputHash, WasRead, SameFindings, PlainTexts, Snapping.Snapped;
    var db := Run(lib, moves).db;
    var b := EveryDetectionWasMade(lib, moves, r);
    var c := EveryDetectionWasMade(lib, moves, q);
    ToleranceRecorded(lib, db, db.runs[r], b, i);
    ToleranceRecorded(lib, db, db.runs[q], c, j);
    SameHashSameResults(lib, moves, r, q, b, c);
  }
}
