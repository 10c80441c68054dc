/**
  The topology report from the overlay library's answers and plain numbers alone: which findings
  it holds, with what magnitudes, in what order, and when there is none.
 */
module Reports {
  import opened Options
  import opened Boundaries
  import opened Topology

  // --- What warrants a finding -----------------------------------------------------------

  ghost predicate WarrantsOverlap(lib: Library, candidate: Polygon, neighbour: Polygon, t: real, evidence: string, area: real) {
    var overlap := lib.intersection(candidate, neighbour);
    overlap == Some(Overlay(area, evidence)) && area > 0.000001 && area > t * t / 10000.0
  }

  ghost predicate WarrantsGap(lib: Library, base: Polygon, candidate: Polygon, neighbour: Polygon, t: real, evidence: string, distance: real) {
    && lib.distance(base, neighbour).Some? && lib.distance(base, neighbour).value <= t
    && lib.distance(candidate, neighbour) == Some(distance) && distance > t
    && evidence == lib.boundary(candidate)
  }

  ghost predicate WarrantsDangling(lib: Library, candidate: Polygon, neighbour: Polygon, t: real, evidence: string, magnitude: real) {
    && lib.distance(candidate, neighbour).Some? && lib.distance(candidate, neighbour).value <= t
    && lib.contact(candidate, neighbour).Some? && lib.contact(candidate, neighbour).value.measure <= t
    && evidence == lib.contact(candidate, neighbour).value.evidence
    && magnitude == t - lib.contact(candidate, neighbour).value.measure
  }

  /** The neighbour gives grounds for exactly this finding. */
  ghost predicate Warrants(lib: Library, base: Polygon, candidate: Polygon, n: ParcelReference, t: real, f: Finding) {
    f.parcelID == n.id &&
    match f.kind
    case Overlap => WarrantsOverlap(lib, candidate, n.polygon, t, f.evidence, f.magnitude)
    case Gap => WarrantsGap(lib, base, candidate, n.polygon, t, f.evidence, f.magnitude)
    case DanglingEdge => WarrantsDangling(lib, candidate, n.polygon, t, f.evidence, f.magnitude)
    case SelfIntersection => false
  }

  ghost predicate OverlaysSucceed(lib: Library, candidate: Polygon, ns: seq<ParcelReference>) {
    forall n | n in ns :: lib.intersection(candidate, n.polygon).Some? && lib.contact(candidate, n.polygon).Some?
  }

  lemma OverlapWarranted(overlap: Overlay, n: ParcelReference, t: real, f: Finding)
    ensures f in OverlapFindings(overlap, n, t) <==>
      && f == Finding(ConflictKind.Overlap, overlap.evidence, overlap.measure, n.id)
      && overlap.measure > 0.000001 && overlap.measure > t * t / 10000.0
  {
    assert t * t * 0.0001 == t * t / 10000.0;
  }

  lemma GapWarranted(lib: Library, base: Polygon, candidate: Polygon, n: ParcelReference, t: real, f: Finding)
    ensures f in GapFindings(lib, base, candidate, n, t) <==>
      f.kind == Gap && f.parcelID == n.id && WarrantsGap(lib, base, candidate, n.polygon, t, f.evidence, f.magnitude)
  {
  }

  lemma DanglingWarranted(lib: Library, candidate: Polygon, n: ParcelReference, t: real, f: Finding)
    requires lib.contact(candidate, n.polygon).Some?
    ensures f in DanglingFindings(lib, candidate, lib.contact(candidate, n.polygon).value, n, t) <==>
      f.kind == DanglingEdge && f.parcelID == n.id && WarrantsDangling(lib, candidate, n.polygon, t, f.evidence, f.magnitude)
  {
  }

  lemma ContributesExactly(lib: Library, base: Polygon, candidate: Polygon, n: ParcelReference, t: real, f: Finding)
    requires lib.intersection(candidate, n.polygon).Some? && lib.contact(candidate, n.polygon).Some?
    ensures Contributes(lib, base, candidate, n, t, f) <==> Warrants(lib, base, candidate, n, t, f)
  {
    var overlap := lib.intersection(candidate, n.polygon).value;
    OverlapWarranted(overlap, n, t, f);
    GapWarranted(lib, base, candidate, n, t, f);
    DanglingWarranted(lib, candidate, n, t, f);
    hide OverlapFindings, GapFindings, DanglingFindings, WarrantsGap, WarrantsDangling;
  }

  // --- All neighbours ---------------------------------------------------------------------

  lemma {:induction false} RawFindingsExactly(lib: Library, base: Polygon, candidate: Polygon, ns: seq<ParcelReference>, t: real)
    ensures RawFindings(lib, base, candidate, ns, t).Some? <==> OverlaysSucceed(lib, candidate, ns)
    ensures RawFindings(lib, base, candidate, ns, t).Some? ==>
      forall f :: f in RawFindings(lib, base, candidate, ns, t).value <==> exists n :: n in ns && Warrants(lib, base, candidate, n, t, f)
  {
    if |ns| > 0 {
      var m, last := |ns| - 1, ns[|ns| - 1];
      RawFindingsExactly(lib, base, candidate, ns[..m], t);
      assert ns == ns[..m] + [last];
      LastNeighbour(lib, base, candidate, last, t);
      hide NeighbourFindings, Warrants;
    }
  }

  lemma LastNeighbour(lib: Library, base: Polygon, candidate: Polygon, n: ParcelReference, t: real)
    ensures var found := NeighbourFindings(lib, base, candidate, n, t);
      && (found.Some? <==> lib.intersection(candidate, n.polygon).Some? && lib.contact(candidate, n.polygon).Some?)
      && (found.Some? ==> forall f :: f in found.value <==> Warrants(lib, base, candidate, n, t, f))
  {
    hide Warrants, OverlapFindings, GapFindings, DanglingFindings;
    if lib.intersection(candidate, n.polygon).Some? && lib.contact(candidate, n.polygon).Some? {
      forall f ensures f in NeighbourFindings(lib, base, candidate, n, t).value <==> Warrants(lib, base, candidate, n, t, f) {
        ContributesExactly(lib, base, candidate, n, t, f);
      }
    }
  }

  /** There is a report exactly when every overlay with a neighbour succeeds. */
  lemma ReportedExactlyWhen(lib: Library, base: Polygon, candidate: Polygon, ns: seq<ParcelReference>, t: real)
    ensures Detected(lib, base, candidate, ns, t).Some? <==> OverlaysSucceed(lib, candidate, ns)
  {
    hide RawFindings, Deduplicated;
    RawFindingsExactly(lib, base, candidate, SortNeighbours(ns), t);
    SameMembers(ns, SortNeighbours(ns));
  }

  /** No neighbour with a lower identifier gives grounds for the same kind of finding with the same evidence. */
  ghost predicate LowestFor(lib: Library, base: Polygon, candidate: Polygon, ns: seq<ParcelReference>, t: real, f: Finding) {
    forall m, g | m in ns && Warrants(lib, base, candidate, m, t, g) && g.kind == f.kind && g.evidence == f.evidence :: f.parcelID <= g.parcelID
  }

  /**
    A report holds exactly the warranted findings, each for the lowest-numbered neighbour that warrants
    its kind and evidence.
   */
  lemma ReportIsExact(lib: Library, base: Polygon, candidate: Polygon, ns: seq<ParcelReference>, t: real, f: Finding)
    requires DistinctIDs(ns) && Detected(lib, base, candidate, ns, t).Some?
    ensures f in Detected(lib, base, candidate, ns, t).value <==>
      (exists n :: n in ns && Warrants(lib, base, candidate, n, t, f)) && LowestFor(lib, base, candidate, ns, t, f)
  {
    hide RawFindings, Deduplicated, Warrants, Key, SortNeighbours;
    var sorted := SortNeighbours(ns);
    var report, raw := Detected(lib, base, candidate, ns, t).value, RawFindings(lib, base, candidate, sorted, t).value;
    RawFindingsExactly(lib, base, candidate, sorted, t);
    SameMembers(ns, sorted);
    ReportIsCanonical(lib, base, candidate, ns, t);
    if f in report {
      forall m, g | m in ns && Warrants(lib, base, candidate, m, t, g) && g.kind == f.kind && g.evidence == f.evidence
        ensures f.parcelID <= g.parcelID
      {
        assert m in sorted;
        var h := KeptForLowest(lib, base, candidate, ns, t, g);
        OneOfEach(report, f, h);
      }
      assert f in raw;
    } else if exists n :: n in ns && Warrants(lib, base, candidate, n, t, f) {
      var n :| n in ns && Warrants(lib, base, candidate, n, t, f);
      assert n in sorted;
      var h := KeptForLowest(lib, base, candidate, ns, t, f);
      assert h in raw;
      var m :| m in sorted && Warrants(lib, base, candidate, m, t, h);
      if LowestFor(lib, base, candidate, ns, t, f) {
        assert f.parcelID == h.parcelID;
        SameWarrant(lib, base, candidate, ns, t, n, f, m, h);
        assert false;
      }
    }
  }

  lemma OneOfEach(report: seq<Finding>, f: Finding, h: Finding)
    requires forall i, j | 0 <= i < j < |report| :: !(report[i].kind == report[j].kind && report[i].evidence == report[j].evidence)
    requires f in report && h in report && f.kind == h.kind && f.evidence == h.evidence
    ensures f == h
  {
    var i :| 0 <= i < |report| && report[i] == f;
    var j :| 0 <= j < |report| && report[j] == h;
    assert i < j || j < i || i == j;
  }

  lemma SameWarrant(lib: Library, base: Polygon, candidate: Polygon, ns: seq<ParcelReference>, t: real,
                    n: ParcelReference, f: Finding, m: ParcelReference, h: Finding)
    requires DistinctIDs(ns) && n in ns && m in ns && f.parcelID == h.parcelID && f.kind == h.kind && f.evidence == h.evidence
    requires Warrants(lib, base, candidate, n, t, f) && Warrants(lib, base, candidate, m, t, h)
    ensures f == h
  {
    var i :| 0 <= i < |ns| && ns[i] == n;
    var j :| 0 <= j < |ns| && ns[j] == m;
    assert i < j || j < i || i == j;
  }

  // --- The order of the report ----------------------------------------------------------------

  function KindRank(kind: ConflictKind): nat {
    match kind
    case Overlap => 0
    case Gap => 1
    case DanglingEdge => 2
    case SelfIntersection => 3
  }

  predicate Before(f: Finding, g: Finding) {
    f.parcelID < g.parcelID || (f.parcelID == g.parcelID && KindRank(f.kind) < KindRank(g.kind))
  }

  ghost predicate InOrder(findings: seq<Finding>) {
    forall i, j | 0 <= i < j < |findings| :: Before(findings[i], findings[j])
  }

  lemma NeighbourInOrder(lib: Library, base: Polygon, candidate: Polygon, n: ParcelReference, t: real)
    requires NeighbourFindings(lib, base, candidate, n, t).Some?
    ensures var found := NeighbourFindings(lib, base, candidate, n, t).value;
      InOrder(found) && forall f | f in found :: f.parcelID == n.id
  {
    hide AreaThreshold, Max, OpensGap, OnlyBarelyTouches;
  }

  lemma {:induction false} RawFindingsInOrder(lib: Library, base: Polygon, candidate: Polygon, ns: seq<ParcelReference>, t: real)
    requires RawFindings(lib, base, candidate, ns, t).Some? && StrictlySorted(ns)
    ensures InOrder(RawFindings(lib, base, candidate, ns, t).value)
    ensures forall f | f in RawFindings(lib, base, candidate, ns, t).value :: |ns| > 0 && f.parcelID <= ns[|ns| - 1].id
  {
    hide NeighbourFindings;
    if |ns| > 0 {
      RawFindingsInOrder(lib, base, candidate, ns[..|ns| - 1], t);
      NeighbourInOrder(lib, base, candidate, ns[|ns| - 1], t);
    }
  }

  lemma {:induction false} DeduplicatedInOrder(input: seq<Finding>)
    requires InOrder(input)
    ensures InOrder(Deduplicated(input)) && forall f | f in Deduplicated(input) :: f in input
  {
    hide Key;
    if |input| > 0 {
      var m := |input| - 1;
      DeduplicatedInOrder(input[..m]);
      assert forall f | f in Deduplicated(input[..m]) :: f in input[..m] && Before(f, input[m]);
    }
  }

  lemma SortedStrictly(ns: seq<ParcelReference>)
    requires DistinctIDs(ns)
    ensures StrictlySorted(SortNeighbours(ns))
  {
    SortingSorts(ns);
    DistinctAfterPermutation(ns, SortNeighbours(ns));
  }

  /** Reports go by parcel, and for one parcel by overlap, gap, dangling edge; so the report is determined. */
  lemma ReportIsOrdered(lib: Library, base: Polygon, candidate: Polygon, ns: seq<ParcelReference>, t: real)
    requires DistinctIDs(ns) && Detected(lib, base, candidate, ns, t).Some?
    ensures InOrder(Detected(lib, base, candidate, ns, t).value)
  {
    hide RawFindings, Deduplicated, SortNeighbours, InOrder;
    SortedStrictly(ns);
    RawFindingsInOrder(lib, base, candidate, SortNeighbours(ns), t);
    DeduplicatedInOrder(RawFindings(lib, base, candidate, SortNeighbours(ns), t).value);
  }
}
