/**
  The service: every operation, served without interruption, leaves the store and gives the
  answer that `Serve` says. How operations interleave is the matter of the step system.
 */
module Services {
  import opened Options
  import opened Boundaries
  import opened Lifecycles
  import opened Records
  import opened Requests
  import opened Calls
  import opened Stores
  import opened Transactions
  import Hashing
  import Identifiers
  import Snapping
  import Topology

  class CadastralService {
    const lib: Library
    const store: Store

    constructor (lib: Library, store: Store)
      ensures this.lib == lib && this.store == store
    {
      this.lib, this.store := lib, store;
    }

    // --- Parcels ------------------------------------------------------------------------

    method CreateParcel(actor: Actor, req: Request) returns (response: Response)
      requires req.CreateParcel?
      modifies store
      ensures (store.Contents(), response) == Serve(lib, old(store.Contents()), actor, req, Started)
    {
      hide Serve, Parsed;
      ServedAtOnce(lib, store.Contents(), actor, req);
      var polygon := ParsePolygon(lib, req.boundary);
      if !lib.systemAllowed(req.coordinateSystem) || polygon.None? {
        return Failed(Unprocessable);
      }
      var state := req.state;
      if state == "" {
        state := "active";
      }
      var item := Parcel(0, req.code, req.name, req.boundary, req.coordinateSystem, PolygonArea(polygon.value.rings), 1, req.owner, state);
      var tx := new Store.Begin(store);
      var id := tx.CreateParcel(item);
      if id.Some? {
        item := item.(id := id.value);
        var recorded := tx.CreateAudit(EntryOf(actor, ParcelCreated, item.id, Some(item.id), Nothing, OfParcel(item)));
        if recorded {
          store.Commit(tx);
          return ParcelAnswer(item);
        }
      }
      var duplicate := exists other | other in store.parcels :: store.parcels[other].code == item.code;
      return Failed(if duplicate then StateConflict else Internal);
    }

    method UpdateParcel(actor: Actor, req: Request) returns (response: Response)
      requires req.UpdateParcel?
      modifies store
      ensures (store.Contents(), response) == Serve(lib, old(store.Contents()), actor, req, Started)
    {
      hide Serve, Parsed, Updated;
      ServedAtOnce(lib, store.Contents(), actor, req);
      if req.id !in store.parcels {
        return Failed(NotFound);
      }
      var before := store.parcels[req.id];
      var version := before.version;
      if req.newVersion.Some? {
        version := req.newVersion.value;
      }
      var after := Revise(before, req);
      if after.None? {
        return Failed(Unprocessable);
      }
      var tx := new Store.Begin(store);
      var changed := tx.UpdateParcel(after.value, version);
      if changed {
        changed := tx.CreateAudit(EntryOf(actor, ParcelUpdated, before.id, Some(before.id), OfParcel(before), OfParcel(after.value)));
      }
      if !changed {
        return Failed(Internal);
      }
      store.Commit(tx);
      return ParcelAnswer(after.value.(version := version + 1));
    }

    /** The copy of a row with the requested fields assigned; None when one is rejected. */
    method Revise(before: Parcel, req: Request) returns (result: Option<Parcel>)
      requires req.UpdateParcel?
      ensures result == Updated(lib, before, req)
    {
      hide Parsed;
      var after := before;
      if req.newName.Some? {
        after := after.(name := req.newName.value);
      }
      if req.newOwner.Some? {
        after := after.(owner := req.newOwner.value);
      }
      if req.newState.Some? {
        after := after.(state := req.newState.value);
      }
      if req.newSystem.Some? {
        if !lib.systemAllowed(req.newSystem.value) {
          return None;
        }
        after := after.(coordinateSystem := req.newSystem.value);
      }
      if req.newBoundary.Some? {
        var polygon := ParsePolygon(lib, req.newBoundary.value);
        if polygon.None? {
          return None;
        }
        after := after.(boundary := req.newBoundary.value, area := PolygonArea(polygon.value.rings));
      }
      return Some(after);
    }

    // --- Observations ---------------------------------------------------------------------

    method ImportObservation(actor: Actor, req: Request) returns (response: Response)
      requires req.ImportObservation?
      modifies store
      ensures (store.Contents(), response) == Serve(lib, old(store.Contents()), actor, req, Started)
    {
      hide Serve, Parsed;
      ServedAtOnce(lib, store.Contents(), actor, req);
      if req.parcelID !in store.parcels {
        return Failed(NotFound);
      }
      if !lib.isPoint(req.point) {
        return Failed(Unprocessable);
      }
      var state := Usable;
      if req.observationState.Some? {
        state := req.observationState.value;
      }
      var item := Observation(0, req.parcelID, req.code, req.point, req.evidence, state, 1, None, req.note, actor.id);
      var tx := new Store.Begin(store);
      var id := tx.CreateObservation(item);
      if id.Some? {
        item := item.(id := id.value);
        var recorded := tx.CreateAudit(EntryOf(actor, ObservationImported, item.id, Some(item.parcelID), Nothing, OfObservation(item)));
        if recorded {
          store.Commit(tx);
          return ObservationAnswer(item);
        }
      }
      return Failed(Internal);
    }

    method TransitionObservation(actor: Actor, req: Request) returns (response: Response)
      requires req.TransitionObservation?
      modifies store
      ensures (store.Contents(), response) == Serve(lib, old(store.Contents()), actor, req, Started)
    {
      hide Serve, Parsed, ChangeObservation;
      ghost var db := store.Contents();
      ServedAtOnce(lib, db, actor, req);
      if req.id !in store.observations {
        return Failed(NotFound);
      }
      var item := store.observations[req.id];
      if item.version != req.version {
        return Failed(StateConflict);
      }
      if !CanTransitionObservation(item.state, req.toObservation) {
        return Failed(StateConflict);
      }
      if !(actor.role == Surveyor || actor.role == GISAnalyst || actor.role == Admin) {
        return Failed(Forbidden);
      }
      if req.toObservation == Superseded {
        if req.replacement.None? || req.replacement.value == item.id {
          return Failed(InvalidInput);
        }
        SupersessionServed(lib, db, actor, req, item);
        if req.replacement.value !in store.observations {
          return Failed(NotFound);
        }
        var replacement := store.observations[req.replacement.value];
        if replacement.parcelID != item.parcelID || replacement.state == Superseded {
          return Failed(StateConflict);
        }
      } else if req.replacement.Some? {
        return Failed(InvalidInput);
      }
      response := StoreObservationChange(actor, item, req.toObservation, req.replacement, req.note);
    }

    method StoreObservationChange(actor: Actor, before: Observation, to: ObservationState, replacement: Option<nat>, note: string)
      returns (response: Response)
      modifies store
      ensures match ChangeObservation(old(store.Contents()), actor, before, to, replacement, note)
        case None => store.Contents() == old(store.Contents()) && response == Failed(StateConflict)
        case Some(after) => store.Contents() == after && response == ObservationAnswer(
          before.(state := to, version := before.version + 1, replacedBy := replacement, note := if note != "" then note else before.note))
    {
      var tx := new Store.Begin(store);
      var changed := tx.TransitionObservation(before.id, before.version, to, replacement, note);
      if changed {
        var after := ObservationMove(to, before.version + 1, replacement, note);
        changed := tx.CreateAudit(EntryOf(actor, ObservationStateChanged, before.id, Some(before.parcelID), OfObservation(before), after));
      }
      if !changed {
        return Failed(StateConflict);
      }
      store.Commit(tx);
      var item := before.(state := to, version := before.version + 1, replacedBy := replacement);
      if note != "" {
        item := item.(note := note);
      }
      return ObservationAnswer(item);
    }

    // --- Proposals -------------------------------------------------------------------------

    method CreateProposal(actor: Actor, req: Request) returns (response: Response)
      requires req.CreateProposal?
      modifies store
      ensures (store.Contents(), response) == Serve(lib, old(store.Contents()), actor, req, Started)
    {
      hide Serve, Parsed, Advance, Fits;
      ghost var db := store.Contents();
      ServedAtOnce(lib, db, actor, req);
      if req.parcelID !in store.parcels {
        return Failed(NotFound);
      }
      var parcel := store.parcels[req.parcelID];
      if parcel.version != req.baseVersion {
        return Failed(StateConflict);
      }
      var polygon := ParsePolygon(lib, req.geometry);
      if polygon.None? {
        return Failed(Unprocessable);
      }
      FirstServed(lib, db, actor, req, parcel);
      for i := 0 to |req.observationIDs|
        invariant store.Contents() == db
        invariant Fits(lib, req, Started) && Fits(lib, req, ParcelRead(parcel, i))
        invariant Serve(lib, db, actor, req, Started) == Serve(lib, db, actor, req, ParcelRead(parcel, i))
      {
        CitedServed(lib, db, actor, req, parcel, i);
        var id := req.observationIDs[i];
        if id !in store.observations || store.observations[id].parcelID != req.parcelID {
          return Failed(InvalidInput);
        }
      }
      CitedServed(lib, db, actor, req, parcel, |req.observationIDs|);
      var item := Proposal(0, req.parcelID, req.baseVersion, req.geometry, req.observationIDs, req.tolerance,
                           PolygonArea(polygon.value.rings) - parcel.area, Draft, req.rationale, 1, actor.id, None);
      var tx := new Store.Begin(store);
      var id := tx.CreateProposal(item);
      item := item.(id := id);
      var recorded := tx.CreateAudit(EntryOf(actor, ProposalCreated, id, Some(item.parcelID), Nothing, OfProposal(item)));
      if !recorded {
        return Failed(Internal);
      }
      store.Commit(tx);
      return ProposalAnswer(item);
    }

    method TransitionProposal(actor: Actor, req: Request) returns (response: Response)
      requires req.TransitionProposal?
      modifies store
      ensures (store.Contents(), response) == Serve(lib, old(store.Contents()), actor, req, Started)
    {
      hide Serve;
      ServedAtOnce(lib, store.Contents(), actor, req);
      if req.id !in store.proposals {
        return Failed(NotFound);
      }
      var item := store.proposals[req.id];
      if !CanProposalTransition(item.state, req.toProposal) {
        return Failed(StateConflict);
      }
      if !MayMoveProposal(item.createdBy, req.toProposal, actor.id, actor.role) {
        return Failed(Forbidden);
      }
      var reviewer := None;
      if IsProposalReviewTransition(req.toProposal) {
        reviewer := Some(actor.id);
      }
      var tx := new Store.Begin(store);
      var changed := tx.TransitionProposal(item.id, item.version, item.state, req.toProposal, req.rationale, reviewer);
      if changed {
        var after := ProposalMove(req.toProposal, item.version + 1);
        changed := tx.CreateAudit(EntryOf(actor, ProposalStateChanged, item.id, Some(item.parcelID), OfProposal(item), after));
      }
      if !changed {
        return Failed(StateConflict);
      }
      store.Commit(tx);
      item := item.(state := req.toProposal, version := item.version + 1);
      if IsProposalReviewTransition(req.toProposal) {
        item := item.(reviewedBy := Some(actor.id));
      }
      return ProposalAnswer(item);
    }

    // --- Conflicts --------------------------------------------------------------------------

    method TransitionConflict(actor: Actor, req: Request) returns (response: Response)
      requires req.TransitionConflict?
      modifies store
      ensures (store.Contents(), response) == Serve(lib, old(store.Contents()), actor, req, Started)
    {
      hide Serve;
      ServedAtOnce(lib, store.Contents(), actor, req);
      if req.id !in store.conflicts {
        return Failed(NotFound);
      }
      var item := store.conflicts[req.id];
      if !CanConflictTransition(item.state, req.toConflict) {
        return Failed(StateConflict);
      }
      var resolved := None;
      if req.toConflict == Resolved || req.toConflict == Closed {
        resolved := Some(actor.id);
      }
      var tx := new Store.Begin(store);
      var changed := tx.TransitionConflict(item.id, item.state, req.toConflict, resolved);
      if changed {
        changed := tx.CreateAudit(EntryOf(actor, ConflictStateChanged, item.id, None, OfConflict(item), ConflictMove(req.toConflict)));
      }
      if !changed {
        return Failed(StateConflict);
      }
      store.Commit(tx);
      return ConflictAnswer(item.(state := req.toConflict, resolvedBy := resolved));
    }

    method ApplyConflictSuggestion(actor: Actor, req: Request) returns (response: Response)
      requires req.ApplySuggestion?
      modifies store
      ensures (store.Contents(), response) == Serve(lib, old(store.Contents()), actor, req, Started)
    {
      hide Serve, Parsed, DefaultRationale, Apply, Derive, Advance;
      ghost var db := store.Contents();
      ServedAtOnce(lib, db, actor, req);
      if !(actor.role == Reviewer || actor.role == Admin) {
        return Failed(Forbidden);
      }
      if req.id !in store.conflicts {
        return Failed(NotFound);
      }
      var item := store.conflicts[req.id];
      if item.state != ResolutionProposed {
        return Failed(StateConflict);
      }
      SourceServed(lib, db, actor, req, item);
      if item.detection.proposalID !in store.proposals {
        return Failed(NotFound);
      }
      var proposal := store.proposals[item.detection.proposalID];
      var polygon := ParsePolygon(lib, item.detection.suggestion.snapped);
      if polygon.None? {
        return Failed(Internal);
      }
      DerivationServed(lib, db, actor, req, item, proposal);
      var derived := DraftFrom(actor, item, proposal, PolygonArea(polygon.value.rings), req.rationale);
      if derived.None? {
        return Failed(NotFound);
      }
      response := StoreDerived(actor, item, derived.value);
    }

    method DraftFrom(actor: Actor, item: Conflict, proposal: Proposal, area: real, requested: string) returns (derived: Option<Proposal>)
      requires area == AreaOf(lib, item.detection.suggestion.snapped)
      ensures Derive(lib, store.Contents(), actor, item, proposal, requested) ==
        if derived.None? then Fail(NotFound) else Ready(ApplyPlan(item, derived.value))
    {
      hide Parsed, AreaOf, DefaultRationale;
      if proposal.parcelID !in store.parcels {
        return None;
      }
      var parcel := store.parcels[proposal.parcelID];
      var rationale := requested;
      if rationale == "" {
        rationale := DefaultRationale(item.id);
      }
      derived := Some(Proposal(0, proposal.parcelID, parcel.version, item.detection.suggestion.snapped, proposal.observationIDs,
                               proposal.tolerance, area - parcel.area, Draft, rationale, proposal.version + 1, actor.id, None));
    }

    /** The transaction of an applied suggestion. */
    method StoreDerived(actor: Actor, item: Conflict, draft: Proposal) returns (response: Response)
      modifies store
      ensures match Apply(old(store.Contents()), actor, item, draft)
        case None => store.Contents() == old(store.Contents()) && response == Failed(Internal)
        case Some(after) => store.Contents() == after && response == ProposalAnswer(draft.(id := old(store.next.proposal)))
    {
      var tx := new Store.Begin(store);
      var id := tx.CreateProposal(draft);
      var derived := draft.(id := id);
      var changed := tx.TransitionConflict(item.id, item.state, Resolved, Some(actor.id));
      if changed {
        changed := tx.CreateAudit(EntryOf(actor, ProposalCreatedFromConflict, id, Some(derived.parcelID), Nothing, OfProposal(derived)));
      }
      if changed {
        changed := tx.CreateAudit(EntryOf(actor, ConflictSuggestionApplied, item.id, Some(id), OfConflict(item), SuggestionMove(Resolved, id)));
      }
      if !changed {
        return Failed(Internal);
      }
      store.Commit(tx);
      return ProposalAnswer(derived);
    }

    // --- Detection ---------------------------------------------------------------------------

    method DetectConflicts(actor: Actor, req: Request) returns (response: Response)
      requires req.DetectConflicts?
      modifies store
      ensures (store.Contents(), response) == Serve(lib, old(store.Contents()), actor, req, Started)
    {
      hide Serve, Parsed, Analysed, Hashing.InputHash, Hashing.Hash, Db.RunFor, Db.ActiveNeighbours, Db.ConflictsByID, Detect;
      ghost var db := store.Contents();
      ServedAtOnce(lib, db, actor, req);
      if req.key == "" || |req.key| > 128 {
        return Failed(InvalidInput);
      }
      if req.proposalID !in store.proposals {
        return Failed(NotFound);
      }
      var proposal := store.proposals[req.proposalID];
      var tolerance := req.tolerance;
      if tolerance == 0.0 {
        tolerance := proposal.tolerance;
      }
      var requestHash := Hashing.ComputeHash([Hashing.Decimal(req.proposalID), lib.toleranceText(tolerance)]);
      LookUpServed(lib, db, actor, req, proposal);
      var existing := store.GetByActorKey(actor.id, req.key);
      if existing.Some? {
        response := ReplayDetectionRun(existing.value, requestHash);
        return;
      }
      if proposal.parcelID !in store.parcels {
        return Failed(NotFound);
      }
      var parcel := store.parcels[proposal.parcelID];
      var base := ParsePolygon(lib, parcel.boundary);
      if base.None? {
        return Failed(Unprocessable);
      }
      var proposed := ParsePolygon(lib, proposal.geometry);
      if proposed.None? {
        return Failed(Unprocessable);
      }
      AnalysisServed(lib, db, actor, req, proposal, parcel);
      var neighbours := store.ListActiveByCoordinateSystem(parcel.coordinateSystem, parcel.id);
      var detections, inputHash := Examine(proposal, parcel, neighbours, tolerance, req.now);
      if detections.Err? {
        return Failed(detections.error);
      }
      response := StoreOrReplay(actor, req, proposal, parcel.id, detections.value, requestHash, inputHash);
    }

    /** Stores a detection, or answers from the run that took the key since it was looked up. */
    method StoreOrReplay(actor: Actor, req: Request, proposal: Proposal, parcelID: nat, detections: seq<Detection>,
                         requestHash: string, inputHash: string)
      returns (response: Response)
      requires req.DetectConflicts?
      modifies store
      ensures (store.Contents(), response) ==
        StoredOrReplayed(old(store.Contents()), actor, req, DetectPlan(proposal, parcelID, detections, requestHash, inputHash))
    {
      hide Detect, Db.RunFor, Db.ConflictsByID;
      var items := StoreDetection(actor, req.key, proposal, parcelID, detections, requestHash, inputHash);
      if items.None? {
        var winner := store.GetByActorKey(actor.id, req.key);
        if winner.Some? {
          response := ReplayDetectionRun(winner.value, requestHash);
          return;
        }
        return Failed(Internal);
      }
      return ConflictsAnswer(items.value);
    }

    method ReplayDetectionRun(run: DetectionRun, requestHash: string) returns (response: Response)
      ensures response == Replayed(store.Contents(), run, requestHash)
    {
      if run.requestHash != requestHash {
        return Failed(StateConflict);
      }
      var items := store.ListByIDs(run.resultIDs);
      if items.None? {
        return Failed(Internal);
      }
      return ConflictsAnswer(items.value);
    }

    /** Everything between the last read and the transaction. */
    method Examine(proposal: Proposal, parcel: Parcel, neighbours: seq<Parcel>, tolerance: real, now: int)
      returns (detections: Result<seq<Detection>, ErrorKind>, inputHash: string)
      requires Parsed(lib, parcel.boundary).Some? && Parsed(lib, proposal.geometry).Some?
      ensures detections == Analysed(lib, proposal, parcel, neighbours, tolerance, now)
      ensures detections.Ok? ==> inputHash == Hashing.InputHash(InputOf(lib, proposal, parcel, neighbours, tolerance))
    {
      hide Snapping.Snapped, Topology.Detected;
      inputHash := "";
      var base := ParsePolygon(lib, parcel.boundary);
      var proposed := ParsePolygon(lib, proposal.geometry);
      hide Parsed;
      var references, parts := LoadReferences(neighbours);
      if references.None? {
        return Err(Internal), inputHash;
      }
      var snapped := Snapping.SnapToReferences(lib, proposed.value, [base.value] + PolygonsOf(references.value), tolerance);
      if snapped.None? {
        return Err(Unprocessable), inputHash;
      }
      var findings := Topology.DetectTopology(lib, base.value, snapped.value.polygon, references.value, tolerance);
      if findings.None? {
        return Err(Internal), inputHash;
      }
      inputHash := Hashing.ComputeHash(
        [parcel.boundary, proposal.geometry, parcel.coordinateSystem, lib.toleranceText(tolerance), Hashing.ALGORITHM_VERSION] + parts);
      var suggestion := Suggestion(snapped.value.encoded, snapped.value.changes, tolerance, parcel.coordinateSystem, inputHash);
      var items := Describe(findings.value, proposal, parcel, suggestion, now);
      detections := Ok(items);
    }

    /** The neighbours' polygons, and what they add to the hashed input. */
    method LoadReferences(neighbours: seq<Parcel>) returns (references: Option<seq<Topology.ParcelReference>>, parts: seq<string>)
      ensures references == References(lib, neighbours)
      ensures references.Some? ==> parts == Hashing.NeighbourParts(BoundaryList(neighbours))
    {
      hide Parsed, Hashing.Decimal;
      var loaded: seq<Topology.ParcelReference> := [];
      parts := [];
      for i := 0 to |neighbours|
        invariant References(lib, neighbours[..i]) == Some(loaded)
        invariant parts == Hashing.NeighbourParts(BoundaryList(neighbours[..i]))
      {
        assert neighbours[..i + 1][..i] == neighbours[..i];
        assert BoundaryList(neighbours[..i + 1])[..i] == BoundaryList(neighbours[..i]);
        var polygon := ParsePolygon(lib, neighbours[i].boundary);
        if polygon.None? {
          ReferencesFail(lib, neighbours, i + 1);
          return None, parts;
        }
        loaded := loaded + [Topology.ParcelReference(neighbours[i].id, polygon.value)];
        parts := parts + [Hashing.Decimal(neighbours[i].id), neighbours[i].boundary];
      }
      assert neighbours[..|neighbours|] == neighbours;
      references := Some(loaded);
    }

    method Describe(findings: seq<Topology.Finding>, proposal: Proposal, parcel: Parcel, suggestion: Suggestion, now: int)
      returns (items: seq<Detection>)
      ensures items == DetectionsOf(findings, proposal, parcel, suggestion, now)
    {
      items := [];
      for i := 0 to |findings|
        invariant items == DetectionsOf(findings[..i], proposal, parcel, suggestion, now)
      {
        var f := findings[i];
        var ids := new nat[] [parcel.id, f.parcelID];
        assert ids[..] == [parcel.id, f.parcelID];
        var participants := Identifiers.UniqueSortedIDs(ids);
        items := items + [Detection(proposal.id, participants, f.kind, f.evidence, f.magnitude, suggestion.inputHash, suggestion, now)];
        assert findings[..i + 1] == findings[..i] + [f];
      }
      assert findings[..|findings|] == findings;
    }

    /** The transaction of a detection: every conflict, then the run that lists them; None when it is rolled back. */
    method StoreDetection(actor: Actor, key: string, proposal: Proposal, parcelID: nat, detections: seq<Detection>,
                          requestHash: string, inputHash: string)
      returns (items: Option<seq<Conflict>>)
      modifies store
      ensures match Detect(old(store.Contents()), actor, key, DetectPlan(proposal, parcelID, detections, requestHash, inputHash))
        case None => items == None && store.Contents() == old(store.Contents())
        case Some(after) => items == Some(DetectedItems(old(store.next.conflict), detections)) && store.Contents() == after
    {
      hide AddConflicts;
      var tx := new Store.Begin(store);
      ghost var db := store.Contents();
      var stored := InsertAll(tx, actor, parcelID, detections);
      if stored.None? {
        return None;
      }
      ConflictsInserted(db, actor, parcelID, detections);
      var resultIDs := IDsOf(stored.value);
      assert resultIDs == Consecutive(db.next.conflict, |detections|);
      var run := DetectionRun(0, proposal.id, actor.id, key, requestHash, inputHash, resultIDs);
      var id := tx.CreateRun(run);
      if id.None? {
        return None;
      }
      run := run.(id := id.value);
      var recorded := tx.CreateAudit(EntryOf(actor, DetectionCompleted, run.id, Some(proposal.id), Nothing, OfRun(run)));
      if !recorded {
        return None;
      }
      store.Commit(tx);
      return stored;
    }

    method InsertAll(tx: Store, actor: Actor, parcelID: nat, detections: seq<Detection>) returns (stored: Option<seq<Conflict>>)
      modifies tx
      ensures match AddConflicts(old(tx.Contents()), actor, parcelID, detections)
        case None => stored == None
        case Some(after) => stored == Some(DetectedItems(old(tx.next.conflict), detections)) && tx.Contents() == after
    {
      ghost var db := tx.Contents();
      var items: seq<Conflict> := [];
      for i := 0 to |detections|
        invariant AddConflicts(db, actor, parcelID, detections[..i]) == Some(tx.Contents())
        invariant items == DetectedItems(db.next.conflict, detections[..i])
        invariant tx.next.conflict == db.next.conflict + i
      {
        hide AddConflicts;
        AddedOneMore(db, actor, parcelID, detections, i);
        var item := tx.CreateConflict(detections[i]);
        var recorded := tx.CreateAudit(EntryOf(actor, ConflictDetected, item.id, Some(parcelID), Nothing, OfConflict(item)));
        if !recorded {
          AddingFails(db, actor, parcelID, detections, i + 1);
          return None;
        }
        items := items + [item];
      }
      assert detections[..|detections|] == detections;
      stored := Some(items);
    }

    method IDsOf(items: seq<Conflict>) returns (ids: seq<nat>)
      ensures |ids| == |items| && forall k | 0 <= k < |items| :: ids[k] == items[k].id
    {
      ids := [];
      for i := 0 to |items|
        invariant |ids| == i && forall k | 0 <= k < i :: ids[k] == items[k].id
      {
        ids := ids + [items[i].id];
      }
    }
  }

  /** The second read of a supersession, and what follows it. */
  lemma SupersessionServed(lib: Library, db: Db, actor: Actor, req: Request, item: Observation)
    requires Start(lib, db, actor, req) == ObservationRead(item)
    ensures req.TransitionObservation? && req.replacement.Some?
    ensures var p := CheckReplacement(db, item, req.toObservation, req.replacement.value, req.note);
      NearlyDone(p) && Serve(lib, db, actor, req, Started) == Concluded(db, actor, req, p)
  {
    hide Serve, Concluded, Parsed;
    ServedOn(lib, db, actor, req, Started);
    ServedOn(lib, db, actor, req, ObservationRead(item));
    ServedToTheEnd(lib, db, actor, req, CheckReplacement(db, item, req.toObservation, req.replacement.value, req.note));
  }

  lemma FirstServed(lib: Library, db: Db, actor: Actor, req: Request, parcel: Parcel)
    requires Start(lib, db, actor, req) == ParcelRead(parcel, 0)
    ensures Fits(lib, req, Started) && Fits(lib, req, ParcelRead(parcel, 0))
    ensures Serve(lib, db, actor, req, Started) == Serve(lib, db, actor, req, ParcelRead(parcel, 0))
  {
    hide Serve, Start;
    ServedOn(lib, db, actor, req, Started);
  }

  /** The next cited observation, and what follows it. */
  lemma CitedServed(lib: Library, db: Db, actor: Actor, req: Request, parcel: Parcel, i: nat)
    requires Fits(lib, req, ParcelRead(parcel, i))
    ensures var p := CheckCited(lib, db, actor, req, parcel, i);
      && Fits(lib, req, p)
      && Serve(lib, db, actor, req, ParcelRead(parcel, i)) == Serve(lib, db, actor, req, p)
      && (NearlyDone(p) ==> Serve(lib, db, actor, req, p) == Concluded(db, actor, req, p))
  {
    hide Serve, Concluded, Parsed, AreaOf;
    ServedOn(lib, db, actor, req, ParcelRead(parcel, i));
    var p := CheckCited(lib, db, actor, req, parcel, i);
    if NearlyDone(p) {
      ServedToTheEnd(lib, db, actor, req, p);
    }
  }

  lemma SourceServed(lib: Library, db: Db, actor: Actor, req: Request, conflict: Conflict)
    requires Start(lib, db, actor, req) == ConflictRead(conflict)
    ensures var p := LoadSource(lib, db, conflict);
      && Fits(lib, req, p)
      && Serve(lib, db, actor, req, Started) == Serve(lib, db, actor, req, p)
      && (NearlyDone(p) ==> Serve(lib, db, actor, req, p) == Concluded(db, actor, req, p))
  {
    hide Serve, Concluded, Parsed;
    ServedOn(lib, db, actor, req, Started);
    ServedOn(lib, db, actor, req, ConflictRead(conflict));
    var p := LoadSource(lib, db, conflict);
    if NearlyDone(p) {
      ServedToTheEnd(lib, db, actor, req, p);
    }
  }

  lemma DerivationServed(lib: Library, db: Db, actor: Actor, req: Request, conflict: Conflict, source: Proposal)
    requires Fits(lib, req, SourceRead(conflict, source))
    ensures req.ApplySuggestion?
    ensures var p := Derive(lib, db, actor, conflict, source, req.rationale);
      NearlyDone(p) && Serve(lib, db, actor, req, SourceRead(conflict, source)) == Concluded(db, actor, req, p)
  {
    hide Serve, Concluded, Parsed, AreaOf, DefaultRationale;
    ServedOn(lib, db, actor, req, SourceRead(conflict, source));
    ServedToTheEnd(lib, db, actor, req, Derive(lib, db, actor, conflict, source, req.rationale));
  }

  lemma {:induction false} ReferencesFail(lib: Library, neighbours: seq<Parcel>, n: nat)
    requires n <= |neighbours| && References(lib, neighbours[..n]).None?
    ensures References(lib, neighbours).None?
    decreases |neighbours|
  {
    hide Parsed;
    if n == |neighbours| {
      assert neighbours[..n] == neighbours;
    } else {
      assert neighbours[..|neighbours| - 1][..n] == neighbours[..n];
      ReferencesFail(lib, neighbours[..|neighbours| - 1], n);
    }
  }

  lemma AddedOneMore(db: Db, actor: Actor, parcelID: nat, detections: seq<Detection>, i: nat)
    requires i < |detections| && AddConflicts(db, actor, parcelID, detections[..i]).Some?
    ensures AddConflicts(db, actor, parcelID, detections[..i + 1]) ==
      AddConflict(AddConflicts(db, actor, parcelID, detections[..i]).value, actor, parcelID, detections[i])
    ensures detections[..i + 1] == detections[..i] + [detections[i]]
  {
    hide AddConflict;
    assert detections[..i + 1][..i] == detections[..i];
  }

  lemma {:induction false} AddingFails(db: Db, actor: Actor, parcelID: nat, detections: seq<Detection>, n: nat)
    requires n <= |detections| && AddConflicts(db, actor, parcelID, detections[..n]).None?
    ensures AddConflicts(db, actor, parcelID, detections).None?
    decreases |detections|
  {
    if n == |detections| {
      assert detections[..n] == detections;
    } else {
      assert detections[..|detections| - 1][..n] == detections[..n];
      AddingFails(db, actor, parcelID, detections[..|detections| - 1], n);
    }
  }

  function Replayed(db: Db, run: DetectionRun, hash: string): Response {
    if run.requestHash != hash then Failed(StateConflict)
    else
      match db.ConflictsByID(run.resultIDs)
      case None => Failed(Internal)
      case Some(items) => ConflictsAnswer(items)
  }

  /** A detection request up to the key lookup, and what a found run answers. */
  lemma LookUpServed(lib: Library, db: Db, actor: Actor, req: Request, proposal: Proposal)
    requires Start(lib, db, actor, req) == ProposalRead(proposal)
    ensures req.DetectConflicts?
    ensures match db.RunFor(actor.id, req.key)
      case Some(run) => Serve(lib, db, actor, req, Started) == (db, Replayed(db, run, RequestHashOf(lib, req, proposal)))
      case None =>
        && (proposal.parcelID !in db.parcels ==> Serve(lib, db, actor, req, Started) == (db, Failed(NotFound)))
        && (proposal.parcelID in db.parcels ==>
              var parcel := db.parcels[proposal.parcelID];
              if Parsed(lib, parcel.boundary).None? || Parsed(lib, proposal.geometry).None?
              then Serve(lib, db, actor, req, Started) == (db, Failed(Unprocessable))
              else Serve(lib, db, actor, req, Started) == Serve(lib, db, actor, req, ParcelOfProposalRead(proposal, parcel)))
  {
    hide Serve, Start, Parsed, Db.RunFor, RequestHashOf, Reuse;
    ServedOn(lib, db, actor, req, Started);
    ServedOn(lib, db, actor, req, ProposalRead(proposal));
    match db.RunFor(actor.id, req.key)
    case Some(run) => ReplayedServed(lib, db, actor, req, run, RequestHashOf(lib, req, proposal));
    case None =>
      ServedOn(lib, db, actor, req, KeyUnused(proposal));
      if LoadParcel(lib, db, proposal).Answered? {
        AnswerServed(lib, db, actor, req, LoadParcel(lib, db, proposal).response);
      }
  }

  lemma ReplayedServed(lib: Library, db: Db, actor: Actor, req: Request, run: DetectionRun, hash: string)
    requires req.DetectConflicts?
    ensures Fits(lib, req, Reuse(run, hash))
    ensures Serve(lib, db, actor, req, Reuse(run, hash)) == (db, Replayed(db, run, hash))
  {
    hide Serve, Db.ConflictsByID;
    if run.requestHash == hash {
      ServedOn(lib, db, actor, req, Replaying(run));
      AnswerServed(lib, db, actor, req, Replayed(db, run, hash));
    } else {
      AnswerServed(lib, db, actor, req, Failed(StateConflict));
    }
  }

  /** The rest of a detection: analysis, transaction, and when that fails the run that took the key. */
  function AnalysedAndStored(lib: Library, db: Db, actor: Actor, req: Request, proposal: Proposal, parcel: Parcel): (Db, Response)
    requires req.DetectConflicts? && Parsed(lib, parcel.boundary).Some? && Parsed(lib, proposal.geometry).Some?
  {
    var neighbours := db.ActiveNeighbours(parcel.coordinateSystem, parcel.id);
    var tolerance := EffectiveTolerance(req.tolerance, proposal);
    var result := Analysed(lib, proposal, parcel, neighbours, tolerance, req.now);
    if result.Err? then (db, Failed(result.error))
    else
      StoredOrReplayed(db, actor, req, DetectPlan(proposal, parcel.id, result.value, RequestHashOf(lib, req, proposal),
        Hashing.InputHash(InputOf(lib, proposal, parcel, neighbours, tolerance))))
  }

  lemma AnalysisServed(lib: Library, db: Db, actor: Actor, req: Request, proposal: Proposal, parcel: Parcel)
    requires Fits(lib, req, ParcelOfProposalRead(proposal, parcel))
    ensures req.DetectConflicts? && Parsed(lib, parcel.boundary).Some? && Parsed(lib, proposal.geometry).Some?
    ensures Serve(lib, db, actor, req, ParcelOfProposalRead(proposal, parcel)) == AnalysedAndStored(lib, db, actor, req, proposal, parcel)
  {
    hide Serve, Parsed, Db.ActiveNeighbours, RequestHashOf, Analysed, Hashing.InputHash, InputOf, StoredOrReplayed;
    ServedOn(lib, db, actor, req, ParcelOfProposalRead(proposal, parcel));
    var p := Analyse(lib, db, req, proposal, parcel);
    if p.Answered? {
      AnswerServed(lib, db, actor, req, p.response);
    } else {
      StoringServed(lib, db, actor, req, p.plan);
    }
  }

  function StoredOrReplayed(db: Db, actor: Actor, req: Request, plan: Plan): (Db, Response)
    requires plan.DetectPlan? && req.DetectConflicts?
  {
    match Detect(db, actor, req.key, plan)
    case Some(after) => (after, ConflictsAnswer(DetectedItems(db.next.conflict, plan.detections)))
    case None =>
      match db.RunFor(actor.id, req.key)
      case Some(run) => (db, Replayed(db, run, plan.requestHash))
      case None => (db, Failed(Internal))
  }

  lemma StoringServed(lib: Library, db: Db, actor: Actor, req: Request, plan: Plan)
    requires plan.DetectPlan? && req.DetectConflicts?
    ensures Fits(lib, req, Ready(plan))
    ensures Serve(lib, db, actor, req, Ready(plan)) == StoredOrReplayed(db, actor, req, plan)
  {
    hide Serve, Detect, Db.RunFor, Replayed, Reuse;
    ServedOn(lib, db, actor, req, Ready(plan));
    match Detect(db, actor, req.key, plan)
    case Some(after) => AnswerServed(lib, after, actor, req, ConflictsAnswer(DetectedItems(db.next.conflict, plan.detections)));
    case None =>
      ServedOn(lib, db, actor, req, TransactionFailed(plan.requestHash));
      match db.RunFor(actor.id, req.key)
      case Some(run) => ReplayedServed(lib, db, actor, req, run, plan.requestHash);
      case None => AnswerServed(lib, db, actor, req, Failed(Internal));
  }
}
