/**
  Lists of parcel identifiers: the backend's in-place sort and compaction, and the
  frontend's reader of the stored list.
 */
module Identifiers {

  ghost predicate Increasing(ids: seq<nat>) {
    forall i, j | 0 <= i < j < |ids| :: ids[i] < ids[j]
  }

  ghost predicate Ascending(ids: seq<nat>) {
    forall i, j | 0 <= i < j < |ids| :: ids[i] <= ids[j]
  }

  // --- uniqueSortedIDs ---------------------------------------------------------------

  function Inserted(ids: seq<nat>, id: nat): (r: seq<nat>)
    ensures |r| == |ids| + 1
    ensures forall x :: x in r <==> x in ids || x == id
    ensures Ascending(ids) ==> Ascending(r)
  {
    if |ids| == 0 || ids[|ids| - 1] <= id then ids + [id]
    else
      assert ids == ids[..|ids| - 1] + [ids[|ids| - 1]];
      var r := Inserted(ids[..|ids| - 1], id);
      assert forall i | 0 <= i < |r| :: r[i] in r;
      r + [ids[|ids| - 1]]
  }

  function Sorted(ids: seq<nat>): (r: seq<nat>)
    ensures |r| == |ids| && Ascending(r)
    ensures forall x :: x in r <==> x in ids
  {
    if |ids| == 0 then []
    else
      assert ids == ids[..|ids| - 1] + [ids[|ids| - 1]];
      Inserted(Sorted(ids[..|ids| - 1]), ids[|ids| - 1])
  }

  /** Drops repeats from an ascending list. */
  function Compacted(ids: seq<nat>): (r: seq<nat>)
    ensures |r| <= |ids|
  {
    if |ids| == 0 then []
    else
      var last := ids[|ids| - 1];
      var earlier := Compacted(ids[..|ids| - 1]);
      if |earlier| == 0 || earlier[|earlier| - 1] != last then earlier + [last] else earlier
  }

  lemma {:induction false} CompactingKeepsMembers(ids: seq<nat>)
    requires Ascending(ids)
    ensures Increasing(Compacted(ids))
    ensures forall x :: x in Compacted(ids) <==> x in ids
  {
    if |ids| > 0 {
      var n := |ids| - 1;
      CompactingKeepsMembers(ids[..n]);
      var earlier := Compacted(ids[..n]);
      assert ids == ids[..n] + [ids[n]];
      forall i | 0 <= i < |earlier| ensures earlier[i] <= ids[n] {
        assert earlier[i] in earlier;
      }
    }
  }

  /** The set of identifiers as its increasing list. */
  function Canonical(ids: seq<nat>): (r: seq<nat>)
    ensures Increasing(r)
    ensures forall x :: x in r <==> x in ids
  {
    CompactingKeepsMembers(Sorted(ids));
    Compacted(Sorted(ids))
  }

  method SortInPlace(ids: array<nat>)
    modifies ids
    ensures ids[..] == Sorted(old(ids[..]))
  {
    var sorted := Sorted(ids[..]);
    for i := 0 to ids.Length
      invariant |sorted| == ids.Length
      invariant ids[..i] == sorted[..i]
    {
      ids[i] := sorted[i];
    }
  }

  lemma CompactedStep(ids: seq<nat>, i: nat, kept: seq<nat>)
    requires i < |ids| && kept == Compacted(ids[..i])
    ensures Compacted(ids[..i + 1]) == if |kept| == 0 || kept[|kept| - 1] != ids[i] then kept + [ids[i]] else kept
  {
    assert ids[..i + 1][..i] == ids[..i];
  }

  /**
    Compacts an array into the front of the very slice it is reading: the write position never
    passes the read position, so no identifier is overwritten unread.
   */
  method CompactInPlace(ids: array<nat>) returns (length: nat)
    modifies ids
    ensures length <= ids.Length && ids[..length] == Compacted(old(ids[..]))
  {
    ghost var sorted := ids[..];
    length := 0;
    for i := 0 to ids.Length
      invariant 0 <= length <= i
      invariant forall k | i <= k < ids.Length :: ids[k] == sorted[k]
      invariant ids[..length] == Compacted(sorted[..i])
    {
      hide Compacted;
      ghost var kept := ids[..length];
      CompactedStep(sorted, i, kept);
      var id := ids[i];
      if length == 0 || ids[length - 1] != id {
        ids[length] := id;
        assert ids[..length + 1] == kept + [id];
        length := length + 1;
      }
    }
    assert sorted[..ids.Length] == sorted;
  }

  method UniqueSortedIDs(ids: array<nat>) returns (output: seq<nat>)
    modifies ids
    ensures output == Canonical(old(ids[..]))
    ensures |output| <= ids.Length && output == ids[..|output|]
  {
    SortInPlace(ids);
    var length := CompactInPlace(ids);
    output := ids[..length];
  }

  lemma {:induction false} IncreasingIsUnique(a: seq<nat>, b: seq<nat>)
    requires Increasing(a) && Increasing(b) && forall x :: x in a <==> x in b
    ensures a == b
  {
    assert |a| > 0 ==> a[0] in b;
    assert |b| > 0 ==> b[0] in a;
    if |a| > 0 {
      var m, n := |a| - 1, |b| - 1;
      assert a[m] in b && b[n] in a;
      assert a[m] == b[n];
      forall x ensures x in a[..m] <==> x in b[..n] {
        assert x in a[..m] <==> x in a && x != a[m];
        assert x in b[..n] <==> x in b && x != b[n];
      }
      IncreasingIsUnique(a[..m], b[..n]);
    }
  }

  /** Two input lists give the same list exactly when they have the same members: order and repeats are lost, nothing else. */
  lemma CanonicalIsASet(a: seq<nat>, b: seq<nat>)
    ensures Canonical(a) == Canonical(b) <==> forall x :: x in a <==> x in b
  {
    if forall x :: x in a <==> x in b {
      IncreasingIsUnique(Canonical(a), Canonical(b));
    } else {
      var x: nat :| (x in a) != (x in b);
      assert x in Canonical(a) <==> x in a;
    }
  }

  // --- normalizeParcelIDs ---------------------------------------------------------------

  /** The largest integer a JavaScript number represents safely, 2^53 - 1. */
  const MAX_SAFE_INTEGER: int := 9007199254740991

  /** A list entry after conversion to a number: an integer, or anything that is not one. */
  datatype Candidate = Integer(value: int) | NotInteger

  /** The wire value after any parsing: an array, or nothing usable. */
  datatype Wire = Array(candidates: seq<Candidate>) | Unusable

  predicate Acceptable(c: Candidate) {
    c.Integer? && 0 < c.value <= MAX_SAFE_INTEGER
  }

  function Normalized(candidates: seq<Candidate>): (r: seq<nat>)
    ensures forall x: nat :: x in r <==> Integer(x) in candidates && Acceptable(Integer(x))
    ensures forall i, j | 0 <= i < j < |r| :: r[i] != r[j]
  {
    if |candidates| == 0 then []
    else
      var last := candidates[|candidates| - 1];
      assert candidates == candidates[..|candidates| - 1] + [last];
      var earlier := Normalized(candidates[..|candidates| - 1]);
      if Acceptable(last) && last.value !in earlier then earlier + [last.value] else earlier
  }

  method NormalizeParcelIDs(wire: Wire) returns (ids: seq<nat>)
    ensures ids == if wire.Array? then Normalized(wire.candidates) else []
  {
    var candidates := if wire.Array? then wire.candidates else [];
    var seen: set<int> := {};
    ids := [];
    for i := 0 to |candidates|
      invariant ids == Normalized(candidates[..i])
      invariant forall x :: x in seen <==> x in ids
    {
      assert candidates[..i + 1][..i] == candidates[..i];
      if candidates[i].Integer? {
        var id := candidates[i].value;
        if id <= MAX_SAFE_INTEGER && id > 0 && id !in seen {
          seen := seen + {id};
          ids := ids + [id];
        }
      }
    }
    assert candidates[..|candidates|] == candidates;
  }

  function Written(ids: seq<nat>): (r: seq<Candidate>)
    ensures |r| == |ids| && forall i | 0 <= i < |ids| :: r[i] == Integer(ids[i])
  {
    seq(|ids|, i requires 0 <= i < |ids| => Integer(ids[i]))
  }

  /** What is read: each integer from 1 to 2^53 - 1 among the entries, once. */
  lemma ReadExactly(candidates: seq<Candidate>)
    ensures var ids := Normalized(candidates);
      && (forall x: nat :: x in ids <==> Integer(x) in candidates && 1 <= x <= 9007199254740991)
      && forall i, j | 0 <= i < j < |ids| :: ids[i] != ids[j]
  {
    hide Normalized;
  }

  /** Reading a list of distinct positive safe integers gives it back unchanged. */
  lemma {:induction false} ReadingIsIdentity(ids: seq<nat>)
    requires forall i | 0 <= i < |ids| :: 0 < ids[i] <= MAX_SAFE_INTEGER
    requires forall i, j | 0 <= i < j < |ids| :: ids[i] != ids[j]
    ensures Normalized(Written(ids)) == ids
  {
    if |ids| > 0 {
      var n := |ids| - 1;
      ReadingIsIdentity(ids[..n]);
      assert Written(ids)[..n] == Written(ids[..n]);
      assert ids == ids[..n] + [ids[n]];
    }
  }

  /** Reading what was read changes nothing more. */
  lemma NormalizingTwice(candidates: seq<Candidate>)
    ensures Normalized(Written(Normalized(candidates))) == Normalized(candidates)
  {
    var ids := Normalized(candidates);
    forall i | 0 <= i < |ids| ensures 0 < ids[i] <= MAX_SAFE_INTEGER {
      assert ids[i] in ids;
    }
    ReadingIsIdentity(ids);
  }

  /** What the backend stores for a set of positive safe identifiers is read back by the frontend as the same list. */
  lemma StoredListIsReadBack(ids: seq<nat>)
    requires forall x | x in ids :: 0 < x <= MAX_SAFE_INTEGER
    ensures Normalized(Written(Canonical(ids))) == Canonical(ids)
  {
    var stored := Canonical(ids);
    forall i | 0 <= i < |stored| ensures 0 < stored[i] <= MAX_SAFE_INTEGER {
      assert stored[i] in stored;
    }
    ReadingIsIdentity(stored);
  }

  /** First occurrences stay in order: a shorter list reads as a prefix of a longer one. */
  lemma {:induction false} ReadingKeepsFirsts(candidates: seq<Candidate>, n: nat)
    requires n <= |candidates|
    ensures Normalized(candidates[..n]) <= Normalized(candidates)
    decreases |candidates| - n
  {
    if n < |candidates| {
      assert candidates[..n + 1][..n] == candidates[..n];
      ReadingKeepsFirsts(candidates, n + 1);
    } else {
      assert candidates[..n] == candidates;
    }
  }
}
