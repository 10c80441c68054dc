/**
  Topology findings between a candidate boundary and its neighbours: what is found for
  each neighbour, the de-duplication by evidence, and why the answer does not depend on
  the order in which the neighbours are supplied.
 */
module Topology {
  import opened Options
  import opened Boundaries

  datatype ParcelReference = ParcelReference(id: nat, polygon: Polygon)

  datatype ConflictKind = Overlap | Gap | SelfIntersection | DanglingEdge {
    function Label(): string {
      match this
      case Overlap => "overlap"
      case Gap => "gap"
      case SelfIntersection => "self_intersection"
      case DanglingEdge => "dangling_edge"
    }
  }

  /** One finding against one neighbour; `evidence` is encoded geometry. */
  datatype Finding = Finding(kind: ConflictKind, evidence: string, magnitude: real, parcelID: nat)

  function Max(a: real, b: real): real {
    if a < b then b else a
  }

  function AreaThreshold(tolerance: real): real {
    Max(0.000001, tolerance * tolerance * 0.0001)
  }

  // --- What one neighbour contributes -------------------------------------------------

  predicate Touches(distance: Option<real>, tolerance: real) {
    distance.Some? && distance.value <= tolerance
  }

  /** The original touched the neighbour and the candidate no longer does. */
  predicate OpensGap(lib: Library, base: Polygon, candidate: Polygon, neighbour: Polygon, tolerance: real) {
    && Touches(lib.distance(base, neighbour), tolerance)
    && lib.distance(candidate, neighbour).Some?
    && lib.distance(candidate, neighbour).value > tolerance
  }

  predicate OnlyBarelyTouches(lib: Library, candidate: Polygon, neighbour: Polygon, shared: real, tolerance: real) {
    Touches(lib.distance(candidate, neighbour), tolerance) && shared <= tolerance
  }

  function OverlapFindings(overlap: Overlay, n: ParcelReference, tolerance: real): seq<Finding> {
    if overlap.measure > AreaThreshold(tolerance)
    then [Finding(ConflictKind.Overlap, overlap.evidence, overlap.measure, n.id)] else []
  }

  function GapFindings(lib: Library, base: Polygon, candidate: Polygon, n: ParcelReference, tolerance: real): seq<Finding> {
    if OpensGap(lib, base, candidate, n.polygon, tolerance)
    then [Finding(Gap, lib.boundary(candidate), lib.distance(candidate, n.polygon).value, n.id)] else []
  }

  function DanglingFindings(lib: Library, candidate: Polygon, contact: Overlay, n: ParcelReference, tolerance: real): seq<Finding> {
    if OnlyBarelyTouches(lib, candidate, n.polygon, contact.measure, tolerance)
    then [Finding(DanglingEdge, contact.evidence, Max(tolerance - contact.measure, 0.0), n.id)] else []
  }

  /** The findings against one neighbour; None when an overlay fails. */
  function NeighbourFindings(lib: Library, base: Polygon, candidate: Polygon, n: ParcelReference, tolerance: real): Option<seq<Finding>> {
    var overlap := lib.intersection(candidate, n.polygon);
    var contact := lib.contact(candidate, n.polygon);
    if overlap.None? || contact.None? then None
    else Some(OverlapFindings(overlap.value, n, tolerance)
              + GapFindings(lib, base, candidate, n, tolerance)
              + DanglingFindings(lib, candidate, contact.value, n, tolerance))
  }

  /** The findings of a list of neighbours, in list order. */
  function RawFindings(lib: Library, base: Polygon, candidate: Polygon, ns: seq<ParcelReference>, tolerance: real): Option<seq<Finding>> {
    if |ns| == 0 then Some([]) else
      var earlier := RawFindings(lib, base, candidate, ns[..|ns| - 1], tolerance);
      var last := NeighbourFindings(lib, base, candidate, ns[|ns| - 1], tolerance);
      if earlier.None? || last.None? then None else Some(earlier.value + last.value)
  }

  // --- De-duplication -------------------------------------------------------------------

  /** The map key of the source: kind and geometry around a separator. */
  function Key(f: Finding): string {
    f.kind.Label() + "|" + f.evidence
  }

  function Keys(findings: seq<Finding>): set<string> {
    set f | f in findings :: Key(f)
  }

  function Deduplicated(input: seq<Finding>): seq<Finding> {
    if |input| == 0 then [] else
      var earlier := Deduplicated(input[..|input| - 1]);
      var last := input[|input| - 1];
      if Key(last) in Keys(earlier) then earlier else earlier + [last]
  }

  method DeduplicateFindings(input: seq<Finding>) returns (output: seq<Finding>)
    ensures output == Deduplicated(input)
  {
    hide Key;
    var seen: set<string> := {};
    output := [];
    for i := 0 to |input|
      invariant output == Deduplicated(input[..i])
      invariant seen == Keys(output)
    {
      assert input[..i + 1][..i] == input[..i];
      var key := Key(input[i]);
      if key !in seen {
        seen := seen + {key};
        output := output + [input[i]];
      }
    }
    assert input[..|input|] == input;
  }

  /** Position `k` holds the first finding with its key. */
  ghost predicate IsFirst(input: seq<Finding>, k: int) {
    0 <= k < |input| && forall h | 0 <= h < k :: Key(input[h]) != Key(input[k])
  }

  lemma {:induction false} FirstOfKey(input: seq<Finding>, i: nat) returns (k: nat)
    requires i < |input|
    ensures k <= i && IsFirst(input, k) && Key(input[k]) == Key(input[i])
  {
    if h :| 0 <= h < i && Key(input[h]) == Key(input[i]) {
      k := FirstOfKey(input, h);
    } else {
      k := i;
    }
  }

  lemma {:induction false} KeysKept(input: seq<Finding>)
    ensures var output := Deduplicated(input);
      Keys(output) == Keys(input) && forall i, j | 0 <= i < j < |output| :: Key(output[i]) != Key(output[j])
  {
    hide Key;
    if |input| > 0 {
      var n := |input| - 1;
      KeysKept(input[..n]);
      assert input == input[..n] + [input[n]];
      assert Keys(input) == Keys(input[..n]) + {Key(input[n])};
      var earlier := Deduplicated(input[..n]);
      assert Keys(earlier + [input[n]]) == Keys(earlier) + {Key(input[n])};
      assert forall i | 0 <= i < |earlier| :: Key(earlier[i]) in Keys(earlier);
    }
  }

  lemma {:induction false} FirstsKept(input: seq<Finding>, k: nat)
    requires IsFirst(input, k)
    ensures input[k] in Deduplicated(input)
  {
    hide Key;
    var n := |input| - 1;
    if k < n {
      FirstsKept(input[..n], k);
    } else {
      KeysKept(input[..n]);
    }
  }

  lemma {:induction false} OnlyFirstsKept(input: seq<Finding>, f: Finding) returns (k: nat)
    requires f in Deduplicated(input)
    ensures IsFirst(input, k) && input[k] == f
  {
    hide Key;
    var n := |input| - 1;
    if f in Deduplicated(input[..n]) {
      k := OnlyFirstsKept(input[..n], f);
    } else {
      KeysKept(input[..n]);
      k := n;
      assert forall h | 0 <= h < n :: Key(input[..n][h]) in Keys(input[..n]);
    }
  }

  /** De-duplication keeps exactly the first finding of every key, each once. */
  lemma DeduplicationKeepsFirsts(input: seq<Finding>)
    ensures var output := Deduplicated(input);
      && (forall k | IsFirst(input, k) :: input[k] in output)
      && (forall f | f in output :: exists k :: IsFirst(input, k) && input[k] == f)
      && (forall i, j | 0 <= i < j < |output| :: Key(output[i]) != Key(output[j]))
  {
    hide Key, Deduplicated;
    KeysKept(input);
    forall k | IsFirst(input, k) ensures input[k] in Deduplicated(input) {
      FirstsKept(input, k);
    }
    forall f | f in Deduplicated(input) ensures exists k :: IsFirst(input, k) && input[k] == f {
      var k := OnlyFirstsKept(input, f);
    }
  }

  /** No kind's label contains the separator, so equal keys mean equal kind and equal geometry. */
  lemma KeyIsInjective(f: Finding, g: Finding)
    ensures Key(f) == Key(g) <==> f.kind == g.kind && f.evidence == g.evidence
  {
    if Key(f) == Key(g) {
      SeparatorSplits(f.kind.Label(), f.evidence, g.kind.Label(), g.evidence);
      assert |f.kind.Label()| == |g.kind.Label()|;
    }
  }

  lemma SeparatorSplits(u: string, x: string, v: string, y: string)
    requires '|' !in u && '|' !in v && u + "|" + x == v + "|" + y
    ensures u == v && x == y
  {
    var a, b := u + "|" + x, v + "|" + y;
    assert forall k | 0 <= k < |u| :: a[k] == u[k] && u[k] != '|';
    assert forall k | 0 <= k < |v| :: b[k] == v[k] && v[k] != '|';
    assert a[|u|] == '|' && b[|v|] == '|';
    assert |u| == |v|;
    assert u == a[..|u|] && v == b[..|v|];
    assert x == a[|u| + 1..] && y == b[|v| + 1..];
  }

  // --- Sorting the neighbours -------------------------------------------------------------

  ghost predicate SortedByID(ns: seq<ParcelReference>) {
    forall i, j | 0 <= i < j < |ns| :: ns[i].id <= ns[j].id
  }

  ghost predicate DistinctIDs(ns: seq<ParcelReference>) {
    forall i, j | 0 <= i < j < |ns| :: ns[i].id != ns[j].id
  }

  function InsertByID(ns: seq<ParcelReference>, n: ParcelReference): (r: seq<ParcelReference>)
    ensures multiset(r) == multiset(ns) + multiset{n}
  {
    if |ns| == 0 || ns[|ns| - 1].id <= n.id then ns + [n]
    else
      assert ns == ns[..|ns| - 1] + [ns[|ns| - 1]];
      InsertByID(ns[..|ns| - 1], n) + [ns[|ns| - 1]]
  }

  /** The sort of the source: a permutation of its input, ordered by identifier. */
  function SortNeighbours(ns: seq<ParcelReference>): (r: seq<ParcelReference>)
    ensures multiset(r) == multiset(ns)
  {
    if |ns| == 0 then []
    else
      assert ns == ns[..|ns| - 1] + [ns[|ns| - 1]];
      InsertByID(SortNeighbours(ns[..|ns| - 1]), ns[|ns| - 1])
  }

  lemma {:induction false} InsertionKeepsOrder(ns: seq<ParcelReference>, n: ParcelReference)
    requires SortedByID(ns)
    ensures SortedByID(InsertByID(ns, n))
  {
    if |ns| > 0 && ns[|ns| - 1].id > n.id {
      var last := ns[|ns| - 1];
      InsertionKeepsOrder(ns[..|ns| - 1], n);
      var r := InsertByID(ns[..|ns| - 1], n);
      forall i | 0 <= i < |r| ensures r[i].id <= last.id {
        assert r[i] in multiset(r);
      }
    }
  }

  lemma {:induction false} SortingSorts(ns: seq<ParcelReference>)
    ensures SortedByID(SortNeighbours(ns))
  {
    if |ns| > 0 {
      SortingSorts(ns[..|ns| - 1]);
      InsertionKeepsOrder(SortNeighbours(ns[..|ns| - 1]), ns[|ns| - 1]);
    }
  }

  lemma SameMembers(a: seq<ParcelReference>, b: seq<ParcelReference>)
    requires multiset(a) == multiset(b)
    ensures |a| == |b|
    ensures forall n :: n in a <==> n in b
  {
    assert |multiset(a)| == |multiset(b)|;
    forall n ensures n in a <==> n in b {
      assert n in a <==> n in multiset(a);
      assert n in b <==> n in multiset(b);
    }
  }

  ghost predicate StrictlySorted(ns: seq<ParcelReference>) {
    forall i, j | 0 <= i < j < |ns| :: ns[i].id < ns[j].id
  }

  /** Strictly sorted lists with the same members are the same list. */
  lemma {:induction false} SortedIsUnique(a: seq<ParcelReference>, b: seq<ParcelReference>)
    requires StrictlySorted(a) && StrictlySorted(b) && forall n :: n in a <==> n in b
    ensures a == b
  {
    assert |a| > 0 ==> a[0] in b;
    assert |b| > 0 ==> b[0] in a;
    if |a| > 0 {
      var m, n := |a| - 1, |b| - 1;
      assert a[m] in b && b[n] in a;
      assert a[m] == b[n];
      forall x ensures x in a[..m] <==> x in b[..n] {
        assert x in a[..m] <==> x in a && x != a[m];
        assert x in b[..n] <==> x in b && x != b[n];
      }
      SortedIsUnique(a[..m], b[..n]);
    }
  }

  // --- Detection ----------------------------------------------------------------------------

  function Detected(lib: Library, base: Polygon, candidate: Polygon, ns: seq<ParcelReference>, tolerance: real): Option<seq<Finding>> {
    match RawFindings(lib, base, candidate, SortNeighbours(ns), tolerance)
    case None => None
    case Some(findings) => Some(Deduplicated(findings))
  }

  method DetectTopology(lib: Library, base: Polygon, candidate: Polygon, neighbours: seq<ParcelReference>, tolerance: real)
    returns (result: Option<seq<Finding>>)
    ensures result == Detected(lib, base, candidate, neighbours, tolerance)
  {
    hide NeighbourFindings, Deduplicated, SortNeighbours;
    var findings: seq<Finding> := [];
    var sorted := SortNeighbours(neighbours);
    for i := 0 to |sorted|
      invariant RawFindings(lib, base, candidate, sorted[..i], tolerance) == Some(findings)
    {
      assert sorted[..i + 1][..i] == sorted[..i];
      var found := Compare(lib, base, candidate, sorted[i], tolerance);
      if found.None? {
        RawFindingsFail(lib, base, candidate, sorted, tolerance, i + 1);
        return None;
      }
      findings := findings + found.value;
    }
    assert sorted[..|sorted|] == sorted;
    var kept := DeduplicateFindings(findings);
    return Some(kept);
  }

  lemma {:induction false} RawFindingsFail(lib: Library, base: Polygon, candidate: Polygon, ns: seq<ParcelReference>, tolerance: real, i: nat)
    requires i <= |ns| && RawFindings(lib, base, candidate, ns[..i], tolerance).None?
    ensures RawFindings(lib, base, candidate, ns, tolerance).None?
    decreases |ns| - i
  {
    if i < |ns| {
      assert ns[..i + 1][..i] == ns[..i];
      RawFindingsFail(lib, base, candidate, ns, tolerance, i + 1);
    } else {
      assert ns[..i] == ns;
    }
  }

  /** The body of the detection loop, for one neighbour. */
  method Compare(lib: Library, base: Polygon, candidate: Polygon, n: ParcelReference, tolerance: real)
    returns (result: Option<seq<Finding>>)
    ensures result == NeighbourFindings(lib, base, candidate, n, tolerance)
  {
    hide AreaThreshold, Max;
    var findings: seq<Finding> := [];
    var overlap := lib.intersection(candidate, n.polygon);
    if overlap.None? {
      return None;
    }
    var area := overlap.value.measure;
    if area > AreaThreshold(tolerance) {
      findings := findings + [Finding(ConflictKind.Overlap, overlap.value.evidence, area, n.id)];
    }
    assert findings == OverlapFindings(overlap.value, n, tolerance);
    var baseDistance := lib.distance(base, n.polygon);
    var candidateDistance := lib.distance(candidate, n.polygon);
    if baseDistance.Some? && candidateDistance.Some? && baseDistance.value <= tolerance && candidateDistance.value > tolerance {
      findings := findings + [Finding(Gap, lib.boundary(candidate), candidateDistance.value, n.id)];
    }
    assert findings == OverlapFindings(overlap.value, n, tolerance) + GapFindings(lib, base, candidate, n, tolerance);
    var contact := lib.contact(candidate, n.polygon);
    if contact.None? {
      return None;
    }
    var shared := contact.value.measure;
    if candidateDistance.Some? && candidateDistance.value <= tolerance && shared <= tolerance {
      findings := findings + [Finding(DanglingEdge, contact.value.evidence, Max(tolerance - shared, 0.0), n.id)];
    }
    assert findings == OverlapFindings(overlap.value, n, tolerance) + GapFindings(lib, base, candidate, n, tolerance)
                       + DanglingFindings(lib, candidate, contact.value, n, tolerance);
    return Some(findings);
  }

  /** Supplying the same neighbours in another order gives the same findings in the same order. */
  lemma OrderDoesNotMatter(lib: Library, base: Polygon, candidate: Polygon, a: seq<ParcelReference>, b: seq<ParcelReference>, tolerance: real)
    requires multiset(a) == multiset(b) && DistinctIDs(a)
    ensures Detected(lib, base, candidate, a, tolerance) == Detected(lib, base, candidate, b, tolerance)
  {
    SortingSorts(a);
    SortingSorts(b);
    DistinctAfterPermutation(a, SortNeighbours(a));
    DistinctAfterPermutation(a, SortNeighbours(b));
    SameMembers(SortNeighbours(a), SortNeighbours(b));
    SortedIsUnique(SortNeighbours(a), SortNeighbours(b));
  }

  lemma {:induction false} DistinctAfterPermutation(a: seq<ParcelReference>, b: seq<ParcelReference>)
    requires multiset(a) == multiset(b) && DistinctIDs(a)
    ensures DistinctIDs(b)
  {
    SameMembers(a, b);
    forall i, j | 0 <= i < j < |b| ensures b[i].id != b[j].id {
      if b[i] == b[j] {
        assert b == b[..i] + [b[i]] + b[i + 1..j] + [b[j]] + b[j + 1..];
        assert multiset(b)[b[i]] >= 2;
        SingleOccurrence(a, b[i]);
      } else {
        assert b[i] in a && b[j] in a;
      }
    }
  }

  lemma {:induction false} SingleOccurrence(a: seq<ParcelReference>, n: ParcelReference)
    requires DistinctIDs(a)
    ensures multiset(a)[n] <= 1
  {
    if |a| > 0 {
      assert a == a[..|a| - 1] + [a[|a| - 1]];
      SingleOccurrence(a[..|a| - 1], n);
      if a[|a| - 1] == n {
        assert n !in a[..|a| - 1];
      }
    }
  }

  ghost predicate Contributes(lib: Library, base: Polygon, candidate: Polygon, n: ParcelReference, tolerance: real, f: Finding) {
    var found := NeighbourFindings(lib, base, candidate, n, tolerance);
    found.Some? && f in found.value
  }

  lemma NeighbourShape(lib: Library, base: Polygon, candidate: Polygon, n: ParcelReference, tolerance: real)
    ensures forall f | Contributes(lib, base, candidate, n, tolerance, f) ::
              f.parcelID == n.id && (f.kind == Gap ==> f.evidence == lib.boundary(candidate))
  {
    hide AreaThreshold, Max, OpensGap, OnlyBarelyTouches;
  }

  /** What every raw finding looks like, and where it comes from. */
  lemma {:induction false} RawFindingsShape(lib: Library, base: Polygon, candidate: Polygon, ns: seq<ParcelReference>, tolerance: real)
    requires RawFindings(lib, base, candidate, ns, tolerance).Some? && SortedByID(ns)
    ensures var raw := RawFindings(lib, base, candidate, ns, tolerance).value;
      && (forall f | f in raw :: (f.kind == Gap ==> f.evidence == lib.boundary(candidate))
            && exists n :: n in ns && n.id == f.parcelID && Contributes(lib, base, candidate, n, tolerance, f))
      && (forall i, j | 0 <= i < j < |raw| :: raw[i].parcelID <= raw[j].parcelID)
  {
    hide NeighbourFindings;
    if |ns| > 0 {
      var m, last := |ns| - 1, ns[|ns| - 1];
      RawFindingsShape(lib, base, candidate, ns[..m], tolerance);
      NeighbourShape(lib, base, candidate, last, tolerance);
      var earlier := RawFindings(lib, base, candidate, ns[..m], tolerance).value;
      var more := NeighbourFindings(lib, base, candidate, last, tolerance).value;
      assert forall f | f in more :: Contributes(lib, base, candidate, last, tolerance, f);
      assert last in ns && forall n | n in ns[..m] :: n in ns && n.id <= last.id;
      hide Contributes;
      forall f | f in earlier
        ensures f.parcelID <= last.id
        ensures exists n :: n in ns && n.id == f.parcelID && Contributes(lib, base, candidate, n, tolerance, f)
      {
        var n :| n in ns[..m] && n.id == f.parcelID && Contributes(lib, base, candidate, n, tolerance, f);
        assert n in ns;
      }
    }
  }

  lemma {:induction false} DeduplicationKeepsOrder(input: seq<Finding>)
    requires forall i, j | 0 <= i < j < |input| :: input[i].parcelID <= input[j].parcelID
    ensures var output := Deduplicated(input);
      && (forall f | f in output :: f in input)
      && (forall i, j | 0 <= i < j < |output| :: output[i].parcelID <= output[j].parcelID)
  {
    hide Key;
    if |input| > 0 {
      var shorter := input[..|input| - 1];
      DeduplicationKeepsOrder(shorter);
      assert forall f | f in Deduplicated(shorter) :: f in shorter && f.parcelID <= input[|input| - 1].parcelID;
    }
  }

  /** Whatever was found is in the report, under the lowest-numbered neighbour that has the same evidence. */
  lemma KeptForLowest(lib: Library, base: Polygon, candidate: Polygon, ns: seq<ParcelReference>, tolerance: real, f: Finding)
    returns (g: Finding)
    requires Detected(lib, base, candidate, ns, tolerance).Some?
    requires f in RawFindings(lib, base, candidate, SortNeighbours(ns), tolerance).value
    ensures g in Detected(lib, base, candidate, ns, tolerance).value
    ensures g.kind == f.kind && g.evidence == f.evidence && g.parcelID <= f.parcelID
  {
    hide Key, RawFindings, Deduplicated;
    var sorted := SortNeighbours(ns);
    SortingSorts(ns);
    RawFindingsShape(lib, base, candidate, sorted, tolerance);
    var raw := RawFindings(lib, base, candidate, sorted, tolerance).value;
    var i :| 0 <= i < |raw| && raw[i] == f;
    var k := FirstOfKey(raw, i);
    FirstsKept(raw, k);
    g := raw[k];
    KeyIsInjective(g, f);
  }

  /**
    The report: ordered by parcel, one finding for each kind and geometry, none missing, each kept
    for the lowest-numbered neighbour that has it.
   */
  lemma ReportIsCanonical(lib: Library, base: Polygon, candidate: Polygon, ns: seq<ParcelReference>, tolerance: real)
    requires Detected(lib, base, candidate, ns, tolerance).Some?
    ensures var report := Detected(lib, base, candidate, ns, tolerance).value;
      var raw := RawFindings(lib, base, candidate, SortNeighbours(ns), tolerance).value;
      && (forall i, j | 0 <= i < j < |report| ::
            && report[i].parcelID <= report[j].parcelID
            && !(report[i].kind == report[j].kind && report[i].evidence == report[j].evidence))
      && (forall f | f in raw :: exists g :: g in report && g.kind == f.kind && g.evidence == f.evidence && g.parcelID <= f.parcelID)
      && (forall f | f in report :: f in raw)
  {
    hide Key, RawFindings, Deduplicated;
    var sorted := SortNeighbours(ns);
    SortingSorts(ns);
    RawFindingsShape(lib, base, candidate, sorted, tolerance);
    var raw := RawFindings(lib, base, candidate, sorted, tolerance).value;
    var report := Deduplicated(raw);
    KeysKept(raw);
    DeduplicationKeepsOrder(raw);
    forall i, j | 0 <= i < j < |report| ensures !(report[i].kind == report[j].kind && report[i].evidence == report[j].evidence) {
      KeyIsInjective(report[i], report[j]);
    }
    forall f | f in raw
      ensures exists g :: g in report && g.kind == f.kind && g.evidence == f.evidence && g.parcelID <= f.parcelID
    {
      var g := KeptForLowest(lib, base, candidate, ns, tolerance, f);
    }
  }

  /** All gap findings share the candidate's whole boundary as evidence, so at most one survives. */
  lemma AtMostOneGap(lib: Library, base: Polygon, candidate: Polygon, ns: seq<ParcelReference>, tolerance: real)
    requires Detected(lib, base, candidate, ns, tolerance).Some?
    ensures var report := Detected(lib, base, candidate, ns, tolerance).value;
      forall i, j | 0 <= i < j < |report| :: !(report[i].kind == Gap && report[j].kind == Gap)
  {
    var sorted := SortNeighbours(ns);
    SortingSorts(ns);
    ReportIsCanonical(lib, base, candidate, ns, tolerance);
    RawFindingsShape(lib, base, candidate, sorted, tolerance);
    hide RawFindings, Deduplicated;
    var report := Detected(lib, base, candidate, ns, tolerance).value;
    forall i, j | 0 <= i < j < |report| ensures !(report[i].kind == Gap && report[j].kind == Gap) {
      assert report[i] in report && report[j] in report;
    }
  }

  ghost predicate GapReported(report: seq<Finding>, id: nat) {
    exists f :: f in report && f.kind == Gap && f.parcelID == id
  }

  /**
    A neighbour's own gap is reported exactly when no lower-numbered neighbour has one: the
    report does not name every neighbour that lost contact.
   */
  lemma OwnGapReportedExactly(lib: Library, base: Polygon, candidate: Polygon, ns: seq<ParcelReference>, tolerance: real, n: ParcelReference)
    requires Detected(lib, base, candidate, ns, tolerance).Some?
    requires n in ns && OpensGap(lib, base, candidate, n.polygon, tolerance)
    ensures GapReported(Detected(lib, base, candidate, ns, tolerance).value, n.id) <==>
              forall m | m in ns && OpensGap(lib, base, candidate, m.polygon, tolerance) :: n.id <= m.id
  {
    hide RawFindings, Deduplicated, OpensGap;
    var sorted := SortNeighbours(ns);
    var report := Detected(lib, base, candidate, ns, tolerance).value;
    SortingSorts(ns);
    SameMembers(ns, sorted);
    var lowest := LowestGap(lib, base, candidate, ns, tolerance, n);
    AtMostOneGap(lib, base, candidate, ns, tolerance);
    forall m | m in ns && OpensGap(lib, base, candidate, m.polygon, tolerance) ensures lowest.parcelID <= m.id {
      var f := LowestGap(lib, base, candidate, ns, tolerance, m);
      SoleGap(report, f, lowest);
    }
    if GapReported(report, n.id) {
      var f :| f in report && f.kind == Gap && f.parcelID == n.id;
      SoleGap(report, f, lowest);
    }
    var owner := FindingOwner(lib, base, candidate, ns, tolerance, lowest);
    GapContribution(lib, base, candidate, owner, tolerance, lowest);
  }

  lemma SoleGap(report: seq<Finding>, f: Finding, g: Finding)
    requires forall i, j | 0 <= i < j < |report| :: !(report[i].kind == Gap && report[j].kind == Gap)
    requires f in report && g in report && f.kind == Gap && g.kind == Gap
    ensures f == g
  {
    var i :| 0 <= i < |report| && report[i] == f;
    var j :| 0 <= j < |report| && report[j] == g;
    assert i < j || j < i || i == j;
  }

  /** The reported gap, which belongs to a neighbour numbered no higher than any that has one. */
  lemma LowestGap(lib: Library, base: Polygon, candidate: Polygon, ns: seq<ParcelReference>, tolerance: real, n: ParcelReference)
    returns (f: Finding)
    requires Detected(lib, base, candidate, ns, tolerance).Some?
    requires n in ns && OpensGap(lib, base, candidate, n.polygon, tolerance)
    ensures f in Detected(lib, base, candidate, ns, tolerance).value && f.kind == Gap && f.parcelID <= n.id
  {
    var sorted := SortNeighbours(ns);
    SameMembers(ns, sorted);
    GapIsFound(lib, base, candidate, sorted, tolerance, n);
    hide RawFindings, Deduplicated, NeighbourFindings, OpensGap, SortNeighbours;
    var raw := RawFindings(lib, base, candidate, sorted, tolerance).value;
    var mine :| mine in raw && mine.kind == Gap && mine.parcelID == n.id;
    f := KeptForLowest(lib, base, candidate, ns, tolerance, mine);
  }

  /** The neighbour a reported finding is about. */
  lemma FindingOwner(lib: Library, base: Polygon, candidate: Polygon, ns: seq<ParcelReference>, tolerance: real, f: Finding)
    returns (owner: ParcelReference)
    requires Detected(lib, base, candidate, ns, tolerance).Some?
    requires f in Detected(lib, base, candidate, ns, tolerance).value
    ensures owner in ns && owner.id == f.parcelID && Contributes(lib, base, candidate, owner, tolerance, f)
  {
    var sorted := SortNeighbours(ns);
    SortingSorts(ns);
    SameMembers(ns, sorted);
    ReportIsCanonical(lib, base, candidate, ns, tolerance);
    RawFindingsShape(lib, base, candidate, sorted, tolerance);
    hide RawFindings, Deduplicated, Contributes;
    owner :| owner in sorted && owner.id == f.parcelID && Contributes(lib, base, candidate, owner, tolerance, f);
  }

  /** No parcel is reported both as having lost contact and as barely touched. */
  lemma GapExcludesDangling(lib: Library, base: Polygon, candidate: Polygon, ns: seq<ParcelReference>, tolerance: real, f: Finding, g: Finding)
    requires Detected(lib, base, candidate, ns, tolerance).Some? && DistinctIDs(ns)
    requires f in Detected(lib, base, candidate, ns, tolerance).value && g in Detected(lib, base, candidate, ns, tolerance).value
    requires f.kind == Gap && g.kind == DanglingEdge
    ensures f.parcelID != g.parcelID
  {
    hide Detected;
    var n := FindingOwner(lib, base, candidate, ns, tolerance, f);
    var m := FindingOwner(lib, base, candidate, ns, tolerance, g);
    var i :| 0 <= i < |ns| && ns[i] == n;
    var j :| 0 <= j < |ns| && ns[j] == m;
    assert i < j || j < i || n == m;
    GapContribution(lib, base, candidate, n, tolerance, f);
    DanglingContribution(lib, base, candidate, m, tolerance, g);
    hide Contributes;
  }

  lemma DanglingContribution(lib: Library, base: Polygon, candidate: Polygon, n: ParcelReference, tolerance: real, f: Finding)
    requires Contributes(lib, base, candidate, n, tolerance, f) && f.kind == DanglingEdge
    ensures Touches(lib.distance(candidate, n.polygon), tolerance)
  {
  }

  lemma GapContribution(lib: Library, base: Polygon, candidate: Polygon, n: ParcelReference, tolerance: real, f: Finding)
    requires Contributes(lib, base, candidate, n, tolerance, f) && f.kind == Gap
    ensures OpensGap(lib, base, candidate, n.polygon, tolerance)
  {
  }

  lemma {:induction false} GapIsFound(lib: Library, base: Polygon, candidate: Polygon, ns: seq<ParcelReference>, tolerance: real, n: ParcelReference)
    requires RawFindings(lib, base, candidate, ns, tolerance).Some? && n in ns
    requires OpensGap(lib, base, candidate, n.polygon, tolerance)
    ensures exists f :: f in RawFindings(lib, base, candidate, ns, tolerance).value && f.kind == Gap && f.parcelID == n.id
  {
    var m := |ns| - 1;
    var raw := RawFindings(lib, base, candidate, ns, tolerance).value;
    if n == ns[m] {
      var gap := Finding(Gap, lib.boundary(candidate), lib.distance(candidate, n.polygon).value, n.id);
      assert gap in NeighbourFindings(lib, base, candidate, n, tolerance).value;
      assert gap in raw;
    } else {
      assert n in ns[..m];
      GapIsFound(lib, base, candidate, ns[..m], tolerance, n);
      var f :| f in RawFindings(lib, base, candidate, ns[..m], tolerance).value && f.kind == Gap && f.parcelID == n.id;
      assert f in raw;
    }
  }
}
