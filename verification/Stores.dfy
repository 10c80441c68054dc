/**
  The store as the service sees it: tables that its methods change in place. Each method
  is proved to do what the function of the same purpose on `Db` says.
 */
module Stores {
  import opened Options
  import opened Lifecycles
  import opened Records

  class Store {
    var parcels: map<nat, Parcel>
    var observations: map<nat, Observation>
    var proposals: map<nat, Proposal>
    var conflicts: map<nat, Conflict>
    var runs: map<nat, DetectionRun>
    var audits: seq<Entry>
    var next: Sequences

    function Contents(): Db
      reads this
    {
      Db(parcels, observations, proposals, conflicts, runs, audits, next)
    }

    constructor ()
      ensures Contents() == EMPTY_DB
    {
      parcels, observations, proposals, conflicts, runs, audits := map[], map[], map[], map[], map[], [];
      next := Sequences(1, 1, 1, 1, 1);
    }

    /** A transaction works on its own copy of the tables. */
    constructor Begin(source: Store)
      ensures Contents() == source.Contents()
    {
      parcels, observations, proposals := source.parcels, source.observations, source.proposals;
      conflicts, runs, audits, next := source.conflicts, source.runs, source.audits, source.next;
    }

    /** All of a transaction's work becomes visible at once; a copy that is dropped instead was rolled back. */
    method Commit(tx: Store)
      modifies this
      ensures Contents() == old(tx.Contents())
    {
      parcels, observations, proposals := tx.parcels, tx.observations, tx.proposals;
      conflicts, runs, audits, next := tx.conflicts, tx.runs, tx.audits, tx.next;
    }

    // --- Inserts ----------------------------------------------------------------------

    method CreateParcel(item: Parcel) returns (id: Option<nat>)
      modifies this
      ensures match old(Contents()).InsertParcel(item)
        case None => id == None && Contents() == old(Contents())
        case Some(after) => id == Some(old(next.parcel)) && Contents() == after
    {
      if exists other | other in parcels :: parcels[other].code == item.code {
        return None;
      }
      id := Some(next.parcel);
      parcels := parcels[next.parcel := item.(id := next.parcel)];
      next := next.(parcel := next.parcel + 1);
    }

    method CreateObservation(item: Observation) returns (id: Option<nat>)
      modifies this
      ensures match old(Contents()).InsertObservation(item)
        case None => id == None && Contents() == old(Contents())
        case Some(after) => id == Some(old(next.observation)) && Contents() == after
    {
      if exists other | other in observations :: observations[other].code == item.code {
        return None;
      }
      id := Some(next.observation);
      observations := observations[next.observation := item.(id := next.observation)];
      next := next.(observation := next.observation + 1);
    }

    method CreateProposal(item: Proposal) returns (id: nat)
      modifies this
      ensures id == old(next.proposal) && Contents() == old(Contents()).InsertProposal(item)
    {
      id := next.proposal;
      proposals := proposals[id := item.(id := id)];
      next := next.(proposal := id + 1);
    }

    method CreateConflict(detection: Detection) returns (item: Conflict)
      modifies this
      ensures item == Conflict(old(next.conflict), detection, Detected, None)
      ensures Contents() == old(Contents()).InsertConflict(detection)
    {
      item := Conflict(next.conflict, detection, Detected, None);
      conflicts := conflicts[item.id := item];
      next := next.(conflict := item.id + 1);
    }

    method CreateRun(item: DetectionRun) returns (id: Option<nat>)
      modifies this
      ensures match old(Contents()).InsertRun(item)
        case None => id == None && Contents() == old(Contents())
        case Some(after) => id == Some(old(next.run)) && Contents() == after
    {
      if exists other | other in runs :: runs[other].actorID == item.actorID && runs[other].key == item.key {
        return None;
      }
      id := Some(next.run);
      runs := runs[next.run := item.(id := next.run)];
      next := next.(run := next.run + 1);
    }

    method CreateAudit(entry: Entry) returns (created: bool)
      modifies this
      ensures match old(Contents()).Audit(entry)
        case None => !created && Contents() == old(Contents())
        case Some(after) => created && Contents() == after
    {
      if entry.requestID == "" {
        return false;
      }
      audits := audits + [entry];
      return true;
    }

    // --- Conditional updates ------------------------------------------------------------

    method UpdateParcel(item: Parcel, version: nat) returns (changed: bool)
      modifies this
      ensures match old(Contents()).UpdateParcel(item, version)
        case None => !changed && Contents() == old(Contents())
        case Some(after) => changed && Contents() == after
    {
      if item.id !in parcels || parcels[item.id].version != version {
        return false;
      }
      var row := parcels[item.id];
      row := row.(name := item.name, boundary := item.boundary, coordinateSystem := item.coordinateSystem);
      row := row.(owner := item.owner, state := item.state, area := item.area);
      row := row.(version := row.version + 1);
      parcels := parcels[item.id := row];
      return true;
    }

    method TransitionObservation(id: nat, version: nat, to: ObservationState, replacement: Option<nat>, note: string)
      returns (changed: bool)
      modifies this
      ensures match old(Contents()).TransitionObservation(id, version, to, replacement, note)
        case None => !changed && Contents() == old(Contents())
        case Some(after) => changed && Contents() == after
    {
      if id !in observations || observations[id].version != version {
        return false;
      }
      var row := observations[id].(state := to, version := version + 1);
      if replacement.Some? {
        row := row.(replacedBy := replacement);
      }
      if note != "" {
        row := row.(note := note);
      }
      observations := observations[id := row];
      return true;
    }

    method TransitionProposal(id: nat, version: nat, from: ProposalState, to: ProposalState, rationale: string, reviewer: Option<nat>)
      returns (changed: bool)
      modifies this
      ensures match old(Contents()).TransitionProposal(id, version, from, to, rationale, reviewer)
        case None => !changed && Contents() == old(Contents())
        case Some(after) => changed && Contents() == after
    {
      if id !in proposals || proposals[id].version != version || proposals[id].state != from {
        return false;
      }
      var row := proposals[id].(state := to, version := version + 1);
      if rationale != "" {
        row := row.(rationale := rationale);
      }
      if reviewer.Some? {
        row := row.(reviewedBy := reviewer);
      }
      proposals := proposals[id := row];
      return true;
    }

    method TransitionConflict(id: nat, from: ConflictState, to: ConflictState, resolver: Option<nat>) returns (changed: bool)
      modifies this
      ensures match old(Contents()).TransitionConflict(id, from, to, resolver)
        case None => !changed && Contents() == old(Contents())
        case Some(after) => changed && Contents() == after
    {
      if id !in conflicts || conflicts[id].state != from {
        return false;
      }
      var row := conflicts[id].(state := to);
      if resolver.Some? {
        row := row.(resolvedBy := resolver);
      }
      conflicts := conflicts[id := row];
      return true;
    }

    // --- Queries -------------------------------------------------------------------------

    method GetByActorKey(actorID: nat, key: string) returns (run: Option<DetectionRun>)
      ensures run == Contents().RunFor(actorID, key)
    {
      run := None;
      for id := 0 to next.run
        invariant run == Contents().FindRun(actorID, key, id)
      {
        if run.None? && id in runs && runs[id].actorID == actorID && runs[id].key == key {
          run := Some(runs[id]);
        }
      }
    }

    method ListActiveByCoordinateSystem(coordinateSystem: string, exclude: nat) returns (items: seq<Parcel>)
      ensures items == Contents().ActiveNeighbours(coordinateSystem, exclude)
    {
      items := [];
      for id := 0 to next.parcel
        invariant items == Contents().NeighboursBelow(coordinateSystem, exclude, id)
      {
        if id in parcels && parcels[id].coordinateSystem == coordinateSystem && parcels[id].state == "active" && id != exclude {
          items := items + [parcels[id]];
        }
      }
    }

    /** The rows come back in no particular order; they are put into the order asked for. */
    method ListByIDs(ids: seq<nat>) returns (ordered: Option<seq<Conflict>>)
      ensures ordered == Contents().ConflictsByID(ids)
    {
      var byID := map id | id in conflicts && id in ids :: conflicts[id];
      var items: seq<Conflict> := [];
      for i := 0 to |ids|
        invariant |items| == i
        invariant forall k | 0 <= k < i :: ids[k] in conflicts && items[k] == conflicts[ids[k]]
      {
        if ids[i] !in byID {
          return None;
        }
        items := items + [byID[ids[i]]];
      }
      assert Contents().ConflictsByID(ids).Some? && items == Contents().ConflictsByID(ids).value;
      return Some(items);
    }
  }
}
