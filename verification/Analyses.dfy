/**
  What a detection reads and what it makes of it, said without the code's own analysis: which parcels are
  its neighbours, what its snap is against, what its findings are, and what is written of each.
 */
module Analyses {
  import opened Options
  import opened Boundaries
  import opened Records
  import opened Invariants
  import opened Requests
  import Hashing
  import Identifiers
  import Reports
  import Snapping
  import Topology

  // --- The neighbours --------------------------------------------------------------------

  /** `ns` are the other active parcels of the parcel's coordinate system, by ascending identifier. */
  ghost predicate ListsNeighbours(db: Db, parcel: Parcel, ns: seq<Parcel>) {
    && (forall i, j | 0 <= i < j < |ns| :: ns[i].id < ns[j].id)
    && (forall p :: p in ns <==>
          && p.id in db.parcels && db.parcels[p.id] == p
          && p.coordinateSystem == parcel.coordinateSystem && p.state == "active" && p.id != parcel.id)
  }

  lemma {:induction false} NeighboursBelowExactly(db: Db, system: string, exclude: nat, n: nat)
    requires forall id | id in db.parcels :: db.parcels[id].id == id
    ensures var ns := db.NeighboursBelow(system, exclude, n);
      && (forall i, j | 0 <= i < j < |ns| :: ns[i].id < ns[j].id)
      && (forall p :: p in ns <==>
            && p.id < n && p.id in db.parcels && db.parcels[p.id] == p
            && p.coordinateSystem == system && p.state == "active" && p.id != exclude)
  {
    if n > 0 {
      NeighboursBelowExactly(db, system, exclude, n - 1);
      var earlier, ns := db.NeighboursBelow(system, exclude, n - 1), db.NeighboursBelow(system, exclude, n);
      assert forall p :: p in earlier ==> p.id < n - 1;
      assert ns != earlier ==> ns == earlier + [db.parcels[n - 1]];
    }
  }

  /** The query lists exactly the neighbours, in order. */
  lemma NeighboursAreExactly(db: Db, parcel: Parcel)
    requires KeysSound(db)
    ensures ListsNeighbours(db, parcel, db.ActiveNeighbours(parcel.coordinateSystem, parcel.id))
  {
    NeighboursBelowExactly(db, parcel.coordinateSystem, parcel.id, db.next.parcel);
  }

  // --- The analysis --------------------------------------------------------------------------

  ghost predicate AllParse(lib: Library, ns: seq<Parcel>) {
    forall n | n in ns :: Parsed(lib, n.boundary).Some?
  }

  /** The neighbours' polygons, each under its parcel's identifier. */
  ghost function Read(lib: Library, ns: seq<Parcel>): (r: seq<Topology.ParcelReference>)
    requires AllParse(lib, ns)
    ensures |r| == |ns|
    ensures forall i | 0 <= i < |r| :: r[i] == Topology.ParcelReference(ns[i].id, Parsed(lib, ns[i].boundary).value)
  {
    seq(|ns|, i requires 0 <= i < |ns| => Topology.ParcelReference(ns[i].id, Parsed(lib, ns[i].boundary).value))
  }

  /** What a detection snaps to: the parcel's own boundary, then its neighbours', in order. */
  ghost function SnapsAgainst(lib: Library, parcel: Parcel, ns: seq<Parcel>): (r: seq<Polygon>)
    requires Parsed(lib, parcel.boundary).Some? && AllParse(lib, ns)
    ensures |r| == 1 + |ns| && r[0] == Parsed(lib, parcel.boundary).value
    ensures forall i | 0 <= i < |ns| :: r[i + 1] == Parsed(lib, ns[i].boundary).value
  {
    seq(1 + |ns|, i requires 0 <= i < 1 + |ns| => if i == 0 then Parsed(lib, parcel.boundary).value else Parsed(lib, ns[i - 1].boundary).value)
  }

  lemma {:induction false} ReferencesAreRead(lib: Library, ns: seq<Parcel>)
    ensures References(lib, ns).Some? <==> AllParse(lib, ns)
    ensures AllParse(lib, ns) ==> References(lib, ns) == Some(Read(lib, ns))
  {
    hide Parsed;
    if |ns| > 0 {
      var m := |ns| - 1;
      ReferencesAreRead(lib, ns[..m]);
      assert ns == ns[..m] + [ns[m]];
      if AllParse(lib, ns) {
        assert Read(lib, ns) == Read(lib, ns[..m]) + [Topology.ParcelReference(ns[m].id, Parsed(lib, ns[m].boundary).value)];
      }
    }
  }

  /** One finding, as it is stored. */
  ghost predicate Describes(d: Detection, f: Topology.Finding, proposal: Proposal, parcel: Parcel, suggestion: Suggestion, now: int) {
    && d.proposalID == proposal.id && d.kind == f.kind && d.geometry == f.evidence && d.magnitude == f.magnitude
    && d.inputHash == suggestion.inputHash && d.suggestion == suggestion && d.detectedAt == now
    && (forall i, j | 0 <= i < j < |d.parcelIDs| :: d.parcelIDs[i] < d.parcelIDs[j])
    && (forall id :: id in d.parcelIDs <==> id == parcel.id || id == f.parcelID)
  }

  ghost predicate DescribesAll(ds: seq<Detection>, fs: seq<Topology.Finding>, proposal: Proposal, parcel: Parcel, suggestion: Suggestion, now: int) {
    |ds| == |fs| && forall k | 0 <= k < |ds| :: Describes(ds[k], fs[k], proposal, parcel, suggestion, now)
  }

  ghost predicate Geometric(lib: Library, proposal: Proposal, parcel: Parcel) {
    Parsed(lib, parcel.boundary).Some? && Parsed(lib, proposal.geometry).Some?
  }

  ghost function SnapMade(lib: Library, proposal: Proposal, parcel: Parcel, ns: seq<Parcel>, t: real): Option<Snapping.SnapResult>
    requires Geometric(lib, proposal, parcel) && AllParse(lib, ns)
  {
    Snapping.Snapped(lib, Parsed(lib, proposal.geometry).value, SnapsAgainst(lib, parcel, ns), t)
  }

  /** The report on a snapped polygon. */
  ghost function ReportMade(lib: Library, parcel: Parcel, ns: seq<Parcel>, snapped: Polygon, t: real): Option<seq<Topology.Finding>>
    requires Parsed(lib, parcel.boundary).Some? && AllParse(lib, ns)
  {
    Topology.Detected(lib, Parsed(lib, parcel.boundary).value, snapped, Read(lib, ns), t)
  }

  ghost function HashMade(lib: Library, proposal: Proposal, parcel: Parcel, ns: seq<Parcel>, t: real): string {
    Hashing.InputHash(Hashing.DetectionInput(parcel.boundary, proposal.geometry, parcel.coordinateSystem, lib.toleranceText(t), BoundaryList(ns)))
  }

  /** What an analysis must come to. */
  ghost predicate Concludes(lib: Library, proposal: Proposal, parcel: Parcel, ns: seq<Parcel>, t: real, now: int, result: Result<seq<Detection>, ErrorKind>)
    requires Geometric(lib, proposal, parcel)
  {
    if !AllParse(lib, ns) then result == Err(Internal)
    else
      var snap := SnapMade(lib, proposal, parcel, ns, t);
      if snap.None? then result == Err(Unprocessable)
      else
        var report := ReportMade(lib, parcel, ns, snap.value.polygon, t);
        if report.None? then result == Err(Internal)
        else
          var suggestion := Suggestion(snap.value.encoded, snap.value.changes, t, parcel.coordinateSystem, HashMade(lib, proposal, parcel, ns, t));
          result.Ok? && DescribesAll(result.value, report.value, proposal, parcel, suggestion, now)
  }

  lemma AnalysisConcludes(lib: Library, proposal: Proposal, parcel: Parcel, ns: seq<Parcel>, t: real, now: int)
    requires Geometric(lib, proposal, parcel)
    ensures Concludes(lib, proposal, parcel, ns, t, now, Analysed(lib, proposal, parcel, ns, t, now))
  {
    hide Parsed, References, Snapping.Snapped, Topology.Detected, Hashing.InputHash;
    ReferencesAreRead(lib, ns);
    if AllParse(lib, ns) {
      var base, references := Parsed(lib, parcel.boundary).value, References(lib, ns).value;
      assert [base] + PolygonsOf(references) == SnapsAgainst(lib, parcel, ns);
      DetectionsDescribe(proposal, parcel);
    }
  }

  lemma DetectionsDescribe(proposal: Proposal, parcel: Parcel)
    ensures forall fs, suggestion, now ::
      DescribesAll(DetectionsOf(fs, proposal, parcel, suggestion, now), fs, proposal, parcel, suggestion, now)
  {
    forall fs, suggestion, now
      ensures DescribesAll(DetectionsOf(fs, proposal, parcel, suggestion, now), fs, proposal, parcel, suggestion, now)
    {
      var ds := DetectionsOf(fs, proposal, parcel, suggestion, now);
      forall k | 0 <= k < |ds| ensures Describes(ds[k], fs[k], proposal, parcel, suggestion, now) {
        DetectionDescribes(fs[k], proposal, parcel, suggestion, now);
      }
    }
  }

  lemma DetectionDescribes(f: Topology.Finding, proposal: Proposal, parcel: Parcel, suggestion: Suggestion, now: int)
    ensures Describes(DetectionOf(f, proposal, parcel, suggestion, now), f, proposal, parcel, suggestion, now)
  {
    var ids := Identifiers.Canonical([parcel.id, f.parcelID]);
    assert forall x :: x in [parcel.id, f.parcelID] <==> x == parcel.id || x == f.parcelID;
  }

  // --- What the snap does to a coordinate, and which findings there are ---------------------------

  /** Neighbours listed in order have distinct identifiers. */
  lemma ReadDistinctly(lib: Library, ns: seq<Parcel>)
    requires AllParse(lib, ns) && forall i, j | 0 <= i < j < |ns| :: ns[i].id < ns[j].id
    ensures Topology.DistinctIDs(Read(lib, ns))
  {
    hide Parsed;
  }

  /** The stored findings are exactly the warranted ones, each for the lowest neighbour that warrants its kind and evidence. */
  lemma FindingsAreWarranted(lib: Library, parcel: Parcel, ns: seq<Parcel>, snapped: Polygon, t: real, f: Topology.Finding)
    requires Parsed(lib, parcel.boundary).Some? && AllParse(lib, ns) && forall i, j | 0 <= i < j < |ns| :: ns[i].id < ns[j].id
    requires ReportMade(lib, parcel, ns, snapped, t).Some?
    ensures var base, references := Parsed(lib, parcel.boundary).value, Read(lib, ns);
      f in ReportMade(lib, parcel, ns, snapped, t).value <==>
        && (exists n :: n in references && Reports.Warrants(lib, base, snapped, n, t, f))
        && Reports.LowestFor(lib, base, snapped, references, t, f)
  {
    hide Parsed, Topology.Detected;
    ReadDistinctly(lib, ns);
    Reports.ReportIsExact(lib, Parsed(lib, parcel.boundary).value, snapped, Read(lib, ns), t, f);
  }
}
