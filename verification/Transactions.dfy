/** Whole transactions: what a plan must satisfy, and that committing it leaves a sound database. */
module Transactions {
  import opened Options
  import opened Boundaries
  import opened Lifecycles
  import opened Records
  import opened AuditTrail
  import opened Invariants
  import opened Requests
  import opened Calls
  import opened Commits

  // --- The runs and the conflicts they list ------------------------------------------------

  /** Neither the runs nor any conflict's detection fields changed. */
  ghost predicate DetectionsKept(db: Db, d: Db) {
    && d.runs == db.runs && d.conflicts.Keys == db.conflicts.Keys && db.proposals.Keys <= d.proposals.Keys
    && forall c | c in db.conflicts :: d.conflicts[c].detection == db.conflicts[c].detection
  }

  lemma RunsStaySound(db: Db, d: Db, pending: seq<nat>)
    requires RunsSound(db, pending) && DetectionsKept(db, d)
    ensures RunsSound(d, pending)
  {
    assert forall c :: InSomeRun(d, c) <==> InSomeRun(db, c);
    forall r | r in d.runs ensures RunSound(d, d.runs[r]) {
      assert RunSound(db, db.runs[r]);
    }
  }

  lemma ConflictIsPending(db: Db, d: Db, pending: seq<nat>, n: nat, row: Conflict)
    requires RunsSound(db, pending) && n !in db.conflicts
    requires d.runs == db.runs && d.proposals == db.proposals && d.conflicts == db.conflicts[n := row]
    ensures RunsSound(d, pending + [n])
  {
    assert forall c :: InSomeRun(d, c) <==> InSomeRun(db, c);
    forall r | r in d.runs ensures RunSound(d, d.runs[r]) {
      assert RunSound(db, db.runs[r]);
    }
    assert forall r | r in db.runs :: n !in db.runs[r].resultIDs by {
      forall r | r in db.runs ensures n !in db.runs[r].resultIDs {
        assert RunSound(db, db.runs[r]);
      }
    }
    assert !InSomeRun(d, n);
  }

  /** Storing the run hands every pending conflict to it. */
  lemma PendingIsListed(db: Db, d: Db, n: nat, run: DetectionRun)
    requires RunsSound(db, run.resultIDs) && n !in db.runs && !db.RunKeyTaken(run.actorID, run.key)
    requires run.proposalID in db.proposals
    requires forall c | c in run.resultIDs ::
      db.conflicts[c].detection.proposalID == run.proposalID && db.conflicts[c].detection.inputHash == run.inputHash
    requires d.runs == db.runs[n := run] && d.proposals == db.proposals && d.conflicts == db.conflicts
    ensures RunsSound(d, [])
  {
    forall r | r in d.runs ensures RunSound(d, d.runs[r]) {
      assert r != n ==> RunSound(db, db.runs[r]);
    }
    hide RunSound, Distinct;
    EveryConflictIsListed(db, d, n, run);
    NewRunIsApart(db, run);
    hide Db.RunKeyTaken, InSomeRun;
    forall r, q | r in d.runs && q in d.runs && r != q
      ensures !(d.runs[r].actorID == d.runs[q].actorID && d.runs[r].key == d.runs[q].key)
      ensures forall c | c in d.runs[r].resultIDs :: c !in d.runs[q].resultIDs
    {
      assert r != n ==> r in db.runs && d.runs[r] == db.runs[r];
      assert q != n ==> q in db.runs && d.runs[q] == db.runs[q];
    }
  }

  lemma EveryConflictIsListed(db: Db, d: Db, n: nat, run: DetectionRun)
    requires forall c | c in db.conflicts :: c in run.resultIDs || InSomeRun(db, c)
    requires n !in db.runs && d.runs == db.runs[n := run] && d.conflicts == db.conflicts
    ensures forall c | c in d.conflicts :: InSomeRun(d, c)
  {
    forall c | c in d.conflicts ensures InSomeRun(d, c) {
      if c in run.resultIDs {
        assert n in d.runs && c in d.runs[n].resultIDs;
      } else {
        var r :| r in db.runs && c in db.runs[r].resultIDs;
        assert r in d.runs && d.runs[r] == db.runs[r];
      }
    }
  }

  lemma NewRunIsApart(db: Db, run: DetectionRun)
    requires !db.RunKeyTaken(run.actorID, run.key) && forall c | c in run.resultIDs :: !InSomeRun(db, c)
    ensures forall r | r in db.runs ::
      && !(db.runs[r].actorID == run.actorID && db.runs[r].key == run.key)
      && (forall c | c in db.runs[r].resultIDs :: c !in run.resultIDs)
  {
    forall r | r in db.runs ensures forall c | c in db.runs[r].resultIDs :: c !in run.resultIDs {
      assert forall c | c in db.runs[r].resultIDs :: InSomeRun(db, c);
    }
  }

  /** What every detection of one plan shares. */
  predicate DetectionsFit(lib: Library, detections: seq<Detection>, proposalID: nat, inputHash: string) {
    forall i | 0 <= i < |detections| ::
      && detections[i].proposalID == proposalID && detections[i].inputHash == inputHash
      && (detections[i].suggestion.tolerance > 0.0 ==> Parsed(lib, detections[i].suggestion.snapped).Some?)
  }

  /** The rows a detection inserts. */
  ghost predicate Inserted(d: Db, first: nat, detections: seq<Detection>) {
    forall c | c in DetectedItems(first, detections) :: c.id in d.conflicts && d.conflicts[c.id] == c
  }

  lemma ConflictInserted(tx: Db, actor: Actor, parcelID: nat, detection: Detection)
    requires AddConflict(tx, actor, parcelID, detection).Some?
    ensures var d, n := AddConflict(tx, actor, parcelID, detection).value, tx.next.conflict;
      d == tx.(conflicts := tx.conflicts[n := Conflict(n, detection, Detected, None)], audits := d.audits, next := tx.next.(conflict := n + 1))
  {
  }

  lemma {:induction false} ConflictsInserted(db: Db, actor: Actor, parcelID: nat, detections: seq<Detection>)
    requires AddConflicts(db, actor, parcelID, detections).Some?
    ensures var d := AddConflicts(db, actor, parcelID, detections).value;
      && d == db.(conflicts := d.conflicts, audits := d.audits, next := db.next.(conflict := db.next.conflict + |detections|))
      && Inserted(d, db.next.conflict, detections)
  {
    var n := |detections|;
    if n > 0 {
      ConflictsInserted(db, actor, parcelID, detections[..n - 1]);
      hide AddConflicts, AddConflict, Inserted;
      var tx := AddConflicts(db, actor, parcelID, detections[..n - 1]).value;
      ConflictInserted(tx, actor, parcelID, detections[n - 1]);
      InsertedOn(tx, AddConflict(tx, actor, parcelID, detections[n - 1]).value, db.next.conflict, detections);
    }
  }

  lemma InsertedOn(tx: Db, d: Db, first: nat, detections: seq<Detection>)
    requires |detections| > 0 && Inserted(tx, first, detections[..|detections| - 1])
    requires var n := |detections| - 1; d.conflicts == tx.conflicts[first + n := Conflict(first + n, detections[n], Detected, None)]
    ensures Inserted(d, first, detections)
  {
    var n := |detections| - 1;
    var newest := Conflict(first + n, detections[n], Detected, None);
    assert DetectedItems(first, detections) == DetectedItems(first, detections[..n]) + [newest];
    assert forall c | c in DetectedItems(first, detections[..n]) :: c.id < newest.id;
  }

  lemma {:induction false} KeepsConflicts(lib: Library, db: Db, actor: Actor, parcelID: nat, detections: seq<Detection>, proposalID: nat, inputHash: string)
    requires Core(lib, db, {}) && RunsSound(db, []) && proposalID in db.proposals
    requires DetectionsFit(lib, detections, proposalID, inputHash)
    requires AddConflicts(db, actor, parcelID, detections).Some?
    ensures Core(lib, AddConflicts(db, actor, parcelID, detections).value, {})
    ensures RunsSound(AddConflicts(db, actor, parcelID, detections).value, Consecutive(db.next.conflict, |detections|))
    ensures Follows(db, AddConflicts(db, actor, parcelID, detections).value)
  {
    hide Core, RunsSound, Follows, Parsed, AddConflict, Inserted;
    var n := |detections|;
    if n == 0 {
      FollowsItself(db);
      assert Consecutive(db.next.conflict, 0) == [];
    } else {
      KeepsConflicts(lib, db, actor, parcelID, detections[..n - 1], proposalID, inputHash);
      ConflictsInserted(db, actor, parcelID, detections[..n - 1]);
      var tx := AddConflicts(db, actor, parcelID, detections[..n - 1]).value;
      KeepsOneMore(lib, tx, actor, parcelID, detections[n - 1], Consecutive(db.next.conflict, n - 1));
      assert Consecutive(db.next.conflict, n) == Consecutive(db.next.conflict, n - 1) + [db.next.conflict + n - 1];
      FollowsTransitively(db, tx, AddConflicts(db, actor, parcelID, detections).value);
    }
  }

  lemma KeepsOneMore(lib: Library, tx: Db, actor: Actor, parcelID: nat, detection: Detection, pending: seq<nat>)
    requires Core(lib, tx, {}) && RunsSound(tx, pending) && detection.proposalID in tx.proposals
    requires detection.suggestion.tolerance > 0.0 ==> Parsed(lib, detection.suggestion.snapped).Some?
    requires AddConflict(tx, actor, parcelID, detection).Some?
    ensures var d := AddConflict(tx, actor, parcelID, detection).value;
      Core(lib, d, {}) && RunsSound(d, pending + [tx.next.conflict]) && Follows(tx, d)
  {
    hide Core, RunsSound, Follows, Parsed, AddConflict, Replay, LegalLog;
    KeepsConflict(lib, tx, actor, parcelID, detection);
    CoreParts(lib, tx);
    ConflictShape(tx, actor, parcelID, detection);
    ConflictIsPending(tx, AddConflict(tx, actor, parcelID, detection).value, pending, tx.next.conflict,
                      Conflict(tx.next.conflict, detection, Detected, None));
  }

  lemma CoreParts(lib: Library, db: Db)
    requires Core(lib, db, {})
    ensures KeysSound(db) && LegalLog(db.audits) && Mirrors(Replay(db.audits), db)
  {
  }

  function RunOf(db: Db, actor: Actor, key: string, plan: Plan): DetectionRun
    requires plan.DetectPlan?
  {
    DetectionRun(db.next.run, plan.source.id, actor.id, key, plan.requestHash, plan.inputHash,
                 Consecutive(db.next.conflict, |plan.detections|))
  }

  lemma KeepsDetection(lib: Library, db: Db, actor: Actor, key: string, plan: Plan)
    requires Sound(lib, db) && plan.DetectPlan? && plan.source.id in db.proposals
    requires DetectionsFit(lib, plan.detections, plan.source.id, plan.inputHash)
    requires Detect(db, actor, key, plan).Some?
    ensures Sound(lib, Detect(db, actor, key, plan).value) && Follows(db, Detect(db, actor, key, plan).value)
    ensures Inserted(Detect(db, actor, key, plan).value, db.next.conflict, plan.detections)
    ensures db.next.run in Detect(db, actor, key, plan).value.runs
    ensures Detect(db, actor, key, plan).value.runs[db.next.run] == RunOf(db, actor, key, plan)
  {
    hide Core, RunsSound, Follows, Parsed, CompleteRun, AddConflicts;
    var tx := AddConflicts(db, actor, plan.parcelID, plan.detections).value;
    KeepsConflicts(lib, db, actor, plan.parcelID, plan.detections, plan.source.id, plan.inputHash);
    ConflictsInserted(db, actor, plan.parcelID, plan.detections);
    var ids := Consecutive(db.next.conflict, |plan.detections|);
    forall c | c in ids
      ensures c in tx.conflicts && tx.conflicts[c].detection.proposalID == plan.source.id && tx.conflicts[c].detection.inputHash == plan.inputHash
    {
      var item := DetectedItems(db.next.conflict, plan.detections)[c - db.next.conflict];
      assert item in DetectedItems(db.next.conflict, plan.detections);
    }
    KeepsListing(lib, tx, actor, RunOf(db, actor, key, plan).(id := 0));
    FollowsTransitively(db, tx, Detect(db, actor, key, plan).value);
  }

  lemma KeepsListing(lib: Library, tx: Db, actor: Actor, item: DetectionRun)
    requires Core(lib, tx, {}) && RunsSound(tx, item.resultIDs) && item.proposalID in tx.proposals
    requires forall c | c in item.resultIDs ::
      c in tx.conflicts && tx.conflicts[c].detection.proposalID == item.proposalID && tx.conflicts[c].detection.inputHash == item.inputHash
    requires CompleteRun(tx, actor, item).Some?
    ensures var d := CompleteRun(tx, actor, item).value;
      && Sound(lib, d) && Follows(tx, d) && d.conflicts == tx.conflicts && d.runs == tx.runs[tx.next.run := item.(id := tx.next.run)]
  {
    hide Core, RunsSound, Follows, Parsed, CompleteRun, Replay, LegalLog;
    KeepsRun(lib, tx, actor, item);
    CoreParts(lib, tx);
    RunShape(tx, actor, item);
    PendingIsListed(tx, CompleteRun(tx, actor, item).value, tx.next.run, item.(id := tx.next.run));
  }

  // --- Plans --------------------------------------------------------------------------------

  ghost predicate HashAgrees(lib: Library, db: Db, req: Request, hash: string) {
    req.DetectConflicts? && req.proposalID in db.proposals && hash == RequestHashOf(lib, req, db.proposals[req.proposalID])
  }

  /** What the reads and guards before a transaction have established. */
  ghost predicate PlanSound(lib: Library, db: Db, actor: Actor, req: Request, plan: Plan) {
    match plan
    case CreateParcelPlan(item) => BoundarySound(lib, item) && item.version == 1
    case UpdateParcelPlan(before, after, _) =>
      && SeenParcel(db, before) && BoundarySound(lib, after)
      && after.id == before.id && after.code == before.code && after.version == before.version
    case ImportPlan(item) => item.parcelID in Replay(db.audits).parcels && item.version == 1 && item.replacedBy.None?
    case ChangeObservationPlan(before, to, replacement, _) =>
      && SeenObservation(db, before) && CanTransitionObservation(before.state, to)
      && if to == Superseded
         then replacement.Some? && replacement.value in db.observations
              && db.observations[replacement.value].parcelID == before.parcelID && replacement.value != before.id
         else replacement.None?
    case CreateProposalPlan(item) => DraftSound(lib, Replay(db.audits), item) && item.state == Draft && item.reviewedBy.None?
    case ChangeProposalPlan(before, to, _) =>
      SeenProposal(db, before) && CanProposalTransition(before.state, to) && MayMoveProposal(before.createdBy, to, actor.id, actor.role)
    case ChangeConflictPlan(before, to) => SeenConflict(db, before) && CanConflictTransition(before.state, to)
    case ApplyPlan(conflict, derived) =>
      && SeenConflict(db, conflict) && conflict.state == ResolutionProposed
      && DraftSound(lib, Replay(db.audits), derived) && derived.state == Draft && derived.reviewedBy.None?
    case DetectPlan(source, _, detections, requestHash, inputHash) =>
      && req.DetectConflicts? && source.id == req.proposalID && source.id in db.proposals
      && HashAgrees(lib, db, req, requestHash) && DetectionsFit(lib, detections, source.id, inputHash)
  }

  lemma KeepsApplication(lib: Library, db: Db, actor: Actor, conflict: Conflict, derived: Proposal)
    requires Sound(lib, db) && SeenConflict(db, conflict) && conflict.state == ResolutionProposed
    requires DraftSound(lib, Replay(db.audits), derived) && derived.state == Draft && derived.reviewedBy.None?
    requires Apply(db, actor, conflict, derived).Some?
    ensures Sound(lib, Apply(db, actor, conflict, derived).value) && Follows(db, Apply(db, actor, conflict, derived).value)
  {
    hide Core, RunsSound, Follows, DraftSound, AddProposal, SettleConflict, Replay, SeenConflict;
    var tx, d := AddProposal(db, actor, derived, ProposalCreatedFromConflict).value, Apply(db, actor, conflict, derived).value;
    KeepsProposal(lib, db, actor, derived, ProposalCreatedFromConflict, {});
    assert {} + {db.next.proposal} == {db.next.proposal};
    SeenConflictStays(db, tx, conflict);
    KeepsSettlement(lib, tx, actor, conflict, db.next.proposal);
    FollowsTransitively(db, tx, d);
    ApplicationKeepsDetections(db, actor, conflict, derived);
    RunsStaySound(db, d, []);
  }

  lemma ApplicationKeepsDetections(db: Db, actor: Actor, conflict: Conflict, derived: Proposal)
    requires Apply(db, actor, conflict, derived).Some?
    ensures DetectionsKept(db, Apply(db, actor, conflict, derived).value)
  {
  }

  lemma SeenConflictStays(a: Db, b: Db, c: Conflict)
    requires SeenConflict(a, c) && Follows(a, b)
    ensures SeenConflict(b, c)
  {
    hide Replay;
  }

  lemma OtherCommitsKeepDetections(db: Db, actor: Actor, req: Request, plan: Plan)
    requires !plan.DetectPlan? && Commit(db, actor, req, plan).Some?
    ensures DetectionsKept(db, Commit(db, actor, req, plan).value)
  {
  }

  /** A committed transaction leaves a sound database in which every row has only evolved. */
  lemma CommitKeepsSound(lib: Library, db: Db, actor: Actor, req: Request, plan: Plan)
    requires Sound(lib, db) && PlanSound(lib, db, actor, req, plan)
    requires Commit(db, actor, req, plan).Some?
    ensures Sound(lib, Commit(db, actor, req, plan).value) && Follows(db, Commit(db, actor, req, plan).value)
  {
    hide Core, RunsSound, Follows, SeenParcel, SeenObservation, SeenProposal, SeenConflict, DraftSound, BoundarySound, Replay,
      DetectionsKept, DetectionsFit,
      AddParcel, ReplaceParcel, AddObservation, ChangeObservation, AddProposal, ChangeProposal, ChangeConflict, Apply, Detect;
    if !plan.DetectPlan? {
      OtherCommitsKeepDetections(db, actor, req, plan);
      RunsStaySound(db, Commit(db, actor, req, plan).value, []);
    }
    match plan
    case CreateParcelPlan(item) => KeepsParcel(lib, db, actor, item, {});
    case UpdateParcelPlan(before, after, version) => KeepsParcelUpdate(lib, db, actor, before, after, version, {});
    case ImportPlan(item) =>
      KnownParcelsAreStored(lib, db);
      KeepsObservation(lib, db, actor, item, {});
    case ChangeObservationPlan(before, to, replacement, note) =>
      KeepsObservationChange(lib, db, actor, before, to, replacement, note, {});
    case CreateProposalPlan(item) => KeepsProposal(lib, db, actor, item, ProposalCreated, {});
    case ChangeProposalPlan(before, to, rationale) => KeepsProposalChange(lib, db, actor, before, to, rationale, {});
    case ChangeConflictPlan(before, to) => KeepsConflictChange(lib, db, actor, before, to, {});
    case ApplyPlan(conflict, derived) => KeepsApplication(lib, db, actor, conflict, derived);
    case DetectPlan(_, _, _, _, _) => KeepsDetection(lib, db, actor, req.key, plan);
  }

  lemma KnownParcelsAreStored(lib: Library, db: Db)
    requires Core(lib, db, {})
    ensures Replay(db.audits).parcels.Keys == db.parcels.Keys
  {
  }
}
