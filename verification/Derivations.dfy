/** Every derived proposal, in every run, is exactly what its conflict suggested. */
module Derivations {
  import opened Options
  import opened Boundaries
  import opened Lifecycles
  import opened Records
  import opened AuditTrail
  import opened Invariants
  import opened Requests
  import opened Calls
  import opened Transactions
  import opened Interleaving
  import opened Histories
  import Hashing

  /** `draft` is the suggestion of `conflict`, drawn on the parcel, observations and tolerance of the proposal it was found in. */
  predicate Suggested(db: Db, conflict: Conflict, draft: Proposal) {
    conflict.detection.proposalID in db.proposals &&
    var source := db.proposals[conflict.detection.proposalID];
    && draft.geometry == conflict.detection.suggestion.snapped && draft.parcelID == source.parcelID
    && draft.observationIDs == source.observationIDs && draft.tolerance == source.tolerance
  }

  /** One more than a version that proposal `id` has had. */
  ghost predicate FollowsVersion(db: Db, id: nat, version: nat) {
    var l := Replay(db.audits);
    id in l.proposals && id in db.proposals && l.proposals[id].born.version < version <= db.proposals[id].version + 1
  }

  /** Who applied a conflict's suggestion, by the log. */
  function Applier(audits: seq<Entry>, c: nat): Option<nat> {
    if |audits| == 0 then None
    else
      var last := audits[|audits| - 1];
      if last.action == ConflictSuggestionApplied && last.resourceID == c then Some(last.actorID)
      else Applier(audits[..|audits| - 1], c)
  }

  /** Proposal `p` is what the suggestion of conflict `c` became, drawn by whoever applied it, one version after its source. */
  ghost predicate DerivedFrom(db: Db, c: nat, p: nat) {
    var l := Replay(db.audits);
    && c in db.conflicts && p in db.proposals && p in l.proposals
    && Suggested(db, db.conflicts[c], db.proposals[p])
    && FollowsVersion(db, db.conflicts[c].detection.proposalID, l.proposals[p].born.version)
    && Applier(db.audits, c) == Some(db.proposals[p].createdBy)
  }

  ghost predicate DerivationsSound(db: Db) {
    forall c | c in Replay(db.audits).applied :: DerivedFrom(db, c, Replay(db.audits).applied[c])
  }

  /** What an application in progress knows beyond `CallSound`. */
  ghost predicate Derives(db: Db, actor: Actor, p: Progress) {
    match p
    case SourceRead(conflict, proposal) =>
      proposal.id == conflict.detection.proposalID && FollowsVersion(db, proposal.id, proposal.version + 1)
    case Ready(ApplyPlan(conflict, draft)) =>
      Suggested(db, conflict, draft) && FollowsVersion(db, conflict.detection.proposalID, draft.version) && draft.createdBy == actor.id
    case _ => true
  }

  // --- What a longer log still says ----------------------------------------------------------

  predicate ConcernsProposals(e: Entry) {
    e.action == ProposalCreated || e.action == ProposalCreatedFromConflict || e.action == ProposalStateChanged
  }

  lemma OthersKeepProposals(l: Ledger, e: Entry)
    requires !ConcernsProposals(e)
    ensures Recorded(l, e).proposals == l.proposals
  {
    hide MovedProposal, MovedConflict;
  }

  /** A creation is of a new proposal. */
  lemma CreationRecorded(l: Ledger, e: Entry)
    requires e.action == ProposalCreated || e.action == ProposalCreatedFromConflict
    requires Legal(l, e)
    ensures var m, p := Recorded(l, e), e.resourceID;
      p !in l.proposals && p in m.proposals && m.proposals == l.proposals[p := m.proposals[p]]
  {
  }

  /** A move keeps what was first recorded. */
  lemma MoveRecorded(l: Ledger, e: Entry)
    requires e.action == ProposalStateChanged && Legal(l, e)
    ensures var m, p := Recorded(l, e), e.resourceID;
      p in l.proposals && p in m.proposals && m.proposals == l.proposals[p := m.proposals[p]] && m.proposals[p].born == l.proposals[p].born
  {
    hide CanProposalTransition;
  }

  lemma RecordedKeepsBirths(l: Ledger, e: Entry)
    requires Legal(l, e)
    ensures forall p | p in l.proposals :: p in Recorded(l, e).proposals && Recorded(l, e).proposals[p].born == l.proposals[p].born
  {
    hide Legal, Recorded;
    if e.action == ProposalStateChanged {
      MoveRecorded(l, e);
    } else if ConcernsProposals(e) {
      CreationRecorded(l, e);
    } else {
      OthersKeepProposals(l, e);
    }
  }

  lemma RecordedKeepsApplications(l: Ledger, e: Entry)
    requires Legal(l, e)
    ensures e.action == ConflictSuggestionApplied ==> e.resourceID !in l.applied
    ensures forall c | c in l.applied :: c in Recorded(l, e).applied && Recorded(l, e).applied[c] == l.applied[c]
  {
    hide CanProposalTransition, CanTransitionObservation, CanConflictTransition, MovedProposal, MovedConflict;
    assert e.action != ConflictSuggestionApplied ==> Recorded(l, e).applied == l.applied;
  }

  lemma {:induction false} LogKeeps(a: seq<Entry>, b: seq<Entry>)
    requires LegalLog(b) && a <= b
    ensures forall p | p in Replay(a).proposals :: p in Replay(b).proposals && Replay(b).proposals[p].born == Replay(a).proposals[p].born
    ensures forall c | c in Replay(a).applied ::
      c in Replay(b).applied && Replay(b).applied[c] == Replay(a).applied[c] && Applier(b, c) == Applier(a, c)
    decreases |b|
  {
    if |a| == |b| {
      assert a == b;
    } else {
      hide Legal, Recorded;
      var earlier := b[..|b| - 1];
      LogKeeps(a, earlier);
      RecordedKeepsBirths(Replay(earlier), b[|b| - 1]);
      RecordedKeepsApplications(Replay(earlier), b[|b| - 1]);
    }
  }

  lemma SuggestedStays(a: Db, b: Db, conflict: Conflict, draft: Proposal)
    requires Follows(a, b) && Suggested(a, conflict, draft)
    ensures Suggested(b, conflict, draft)
  {
    hide Replay;
  }

  lemma FollowsVersionStays(a: Db, b: Db, id: nat, version: nat)
    requires Follows(a, b) && LegalLog(b.audits) && FollowsVersion(a, id, version)
    ensures FollowsVersion(b, id, version)
  {
    hide Replay, LegalLog, Applier;
    LogKeeps(a.audits, b.audits);
  }

  lemma DerivesStays(a: Db, b: Db, actor: Actor, p: Progress)
    requires Follows(a, b) && LegalLog(b.audits) && Derives(a, actor, p)
    ensures Derives(b, actor, p)
  {
    hide Follows, Suggested, FollowsVersion, LegalLog;
    match p
    case SourceRead(_, proposal) => FollowsVersionStays(a, b, proposal.id, proposal.version + 1);
    case Ready(ApplyPlan(conflict, draft)) =>
      SuggestedStays(a, b, conflict, draft);
      FollowsVersionStays(a, b, conflict.detection.proposalID, draft.version);
    case _ =>
  }

  lemma DerivedFromStays(a: Db, b: Db, c: nat)
    requires Follows(a, b) && LegalLog(b.audits) && c in Replay(a.audits).applied && DerivedFrom(a, c, Replay(a.audits).applied[c])
    ensures DerivedFrom(b, c, Replay(a.audits).applied[c])
  {
    hide Replay, LegalLog, Suggested, FollowsVersion, Applier;
    var p := Replay(a.audits).applied[c];
    LogKeeps(a.audits, b.audits);
    SuggestedStays(a, b, a.conflicts[c], a.proposals[p]);
    SameSuggestion(b, a.conflicts[c], a.proposals[p], b.conflicts[c], b.proposals[p]);
    FollowsVersionStays(a, b, a.conflicts[c].detection.proposalID, Replay(a.audits).proposals[p].born.version);
  }

  lemma SameSuggestion(db: Db, conflict: Conflict, draft: Proposal, c: Conflict, p: Proposal)
    requires Suggested(db, conflict, draft) && c.detection == conflict.detection
    requires p.geometry == draft.geometry && p.parcelID == draft.parcelID && p.observationIDs == draft.observationIDs && p.tolerance == draft.tolerance
    ensures Suggested(db, c, p)
  {
  }

  /** Drafts already derived stay what they were. */
  lemma DerivationsStay(a: Db, b: Db)
    requires Follows(a, b) && LegalLog(b.audits) && DerivationsSound(a) && Replay(b.audits).applied == Replay(a.audits).applied
    ensures DerivationsSound(b)
  {
    hide Replay, LegalLog, Follows, DerivedFrom;
    forall c | c in Replay(b.audits).applied ensures DerivedFrom(b, c, Replay(b.audits).applied[c]) {
      DerivedFromStays(a, b, c);
    }
  }

  // --- What each transaction does to the applications on record --------------------------------

  lemma OtherEntry(audits: seq<Entry>, e: Entry)
    requires e.action != ConflictSuggestionApplied
    ensures Replay(audits + [e]).applied == Replay(audits).applied
  {
    Append(audits, e);
    hide Replay;
  }

  lemma {:induction false} AddingConflictsAppliesNone(db: Db, actor: Actor, parcelID: nat, detections: seq<Detection>)
    requires AddConflicts(db, actor, parcelID, detections).Some?
    ensures Replay(AddConflicts(db, actor, parcelID, detections).value.audits).applied == Replay(db.audits).applied
  {
    var n := |detections|;
    if n > 0 {
      AddingConflictsAppliesNone(db, actor, parcelID, detections[..n - 1]);
      hide AddConflicts, Replay;
      var tx := AddConflicts(db, actor, parcelID, detections[..n - 1]).value;
      OtherEntry(tx.audits, EntryOf(actor, ConflictDetected, tx.next.conflict, Some(parcelID), Nothing,
                                    OfConflict(Conflict(tx.next.conflict, detections[n - 1], Detected, None))));
    }
  }

  lemma OtherCommitsApplyNone(db: Db, actor: Actor, req: Request, plan: Plan)
    requires plan.DetectPlan? ==> req.DetectConflicts?
    requires Commit(db, actor, req, plan).Some? && !plan.ApplyPlan?
    ensures Replay(Commit(db, actor, req, plan).value.audits).applied == Replay(db.audits).applied
  {
    hide Replay, AddConflicts;
    var audits := Commit(db, actor, req, plan).value.audits;
    if plan.DetectPlan? {
      AddingConflictsAppliesNone(db, actor, plan.parcelID, plan.detections);
      var tx := AddConflicts(db, actor, plan.parcelID, plan.detections).value;
      OtherEntry(tx.audits, audits[|tx.audits|]);
    } else {
      OtherEntry(db.audits, audits[|db.audits|]);
    }
  }

  /** An application puts exactly one pair on record: the conflict and the new draft. */
  lemma ApplicationRecorded(db: Db, actor: Actor, conflict: Conflict, draft: Proposal)
    requires conflict.id in Replay(db.audits).conflicts && Apply(db, actor, conflict, draft).Some?
    ensures var audits, l, n := Apply(db, actor, conflict, draft).value.audits, Replay(db.audits), db.next.proposal;
      && Replay(audits).applied == l.applied[conflict.id := n]
      && Applier(audits, conflict.id) == Some(actor.id)
      && n in Replay(audits).proposals && Replay(audits).proposals[n].born == draft.(id := n)
  {
    var n := db.next.proposal;
    var p := EntryOf(actor, ProposalCreatedFromConflict, n, Some(draft.parcelID), Nothing, OfProposal(draft.(id := n)));
    var e := EntryOf(actor, ConflictSuggestionApplied, conflict.id, Some(n), OfConflict(conflict), SuggestionMove(Resolved, n));
    ApplicationLogged(db, actor, conflict, draft);
    hide Apply, LegalLog;
    Append(db.audits, p);
    Append(db.audits + [p], e);
    hide Replay;
    assert (db.audits + [p] + [e])[|db.audits + [p]|] == e;
  }

  lemma ApplicationLogged(db: Db, actor: Actor, conflict: Conflict, draft: Proposal)
    requires Apply(db, actor, conflict, draft).Some?
    ensures Apply(db, actor, conflict, draft).value.audits == db.audits
      + [EntryOf(actor, ProposalCreatedFromConflict, db.next.proposal, Some(draft.parcelID), Nothing, OfProposal(draft.(id := db.next.proposal)))]
      + [EntryOf(actor, ConflictSuggestionApplied, conflict.id, Some(db.next.proposal), OfConflict(conflict), SuggestionMove(Resolved, db.next.proposal))]
  {
  }

  lemma ApplicationKeepsDerivations(lib: Library, db: Db, actor: Actor, req: Request, conflict: Conflict, draft: Proposal)
    requires Sound(lib, db) && DerivationsSound(db) && PlanSound(lib, db, actor, req, ApplyPlan(conflict, draft))
    requires Derives(db, actor, Ready(ApplyPlan(conflict, draft))) && Apply(db, actor, conflict, draft).Some?
    ensures DerivationsSound(Apply(db, actor, conflict, draft).value)
  {
    hide Sound, PlanSound, Replay, LegalLog, Mirrors, ParcelsSound, ProposalsSound, ConflictsSound, AppliedSound, KeysSound, RunsSound,
      Follows, DerivedFrom, Apply, Suggested, FollowsVersion, Applier;
    var d := Apply(db, actor, conflict, draft).value;
    CommitKeepsSound(lib, db, actor, req, ApplyPlan(conflict, draft));
    SoundLedger(lib, d);
    CommittedRow(lib, db, actor, req, ApplyPlan(conflict, draft));
    KnownConflict(lib, db, conflict.id);
    ApplicationRecorded(db, actor, conflict, draft);
    NewDerivation(db, d, actor, conflict, draft);
    forall c | c in Replay(d.audits).applied ensures DerivedFrom(d, c, Replay(d.audits).applied[c]) {
      if c != conflict.id {
        DerivedFromStays(db, d, c);
      }
    }
  }

  lemma KnownConflict(lib: Library, db: Db, c: nat)
    requires Sound(lib, db) && c in db.conflicts
    ensures c in Replay(db.audits).conflicts && db.next.proposal !in db.proposals
  {
    hide Sound, Replay, LegalLog, ParcelsSound, ProposalsSound, ConflictsSound, AppliedSound, RunsSound;
    SoundLedger(lib, db);
    SoundRuns(lib, db);
  }

  lemma NewDerivation(db: Db, d: Db, actor: Actor, conflict: Conflict, draft: Proposal)
    requires Apply(db, actor, conflict, draft) == Some(d) && Follows(db, d) && LegalLog(d.audits)
    requires conflict.id in db.conflicts && db.conflicts[conflict.id] == conflict && db.next.proposal !in db.proposals
    requires Derives(db, actor, Ready(ApplyPlan(conflict, draft)))
    requires Applier(d.audits, conflict.id) == Some(actor.id)
    requires db.next.proposal in Replay(d.audits).proposals && Replay(d.audits).proposals[db.next.proposal].born == draft.(id := db.next.proposal)
    ensures DerivedFrom(d, conflict.id, db.next.proposal)
  {
    hide Apply, Replay, LegalLog, Follows, Suggested, FollowsVersion, Applier;
    AppliedRows(db, actor, conflict, draft);
    var row := d.proposals[db.next.proposal];
    SuggestedStays(db, d, conflict, draft);
    SameSuggestion(d, conflict, draft, d.conflicts[conflict.id], row);
    FollowsVersionStays(db, d, conflict.detection.proposalID, draft.version);
  }

  /** What an application leaves of the rows, as far as suggestions are concerned. */
  lemma AppliedRows(db: Db, actor: Actor, conflict: Conflict, draft: Proposal)
    requires Apply(db, actor, conflict, draft).Some? && conflict.id in db.conflicts
    requires db.next.proposal !in db.proposals
    ensures var d := Apply(db, actor, conflict, draft).value;
      && d.conflicts.Keys == db.conflicts.Keys
      && (forall c | c in db.conflicts :: d.conflicts[c].detection == db.conflicts[c].detection)
      && d.proposals == db.proposals[db.next.proposal := draft.(id := db.next.proposal)]
  {
  }

  // --- Steps --------------------------------------------------------------------------------------

  /** Only the two steps of an application concern suggestions. */
  lemma OtherReads(lib: Library, db: Db, actor: Actor, req: Request, p: Progress)
    requires Fits(lib, req, p) && !p.Ready? && !p.ConflictRead? && !p.SourceRead?
    ensures var q := Advance(lib, db, actor, req, p).1; !q.SourceRead? && (q.Ready? ==> !q.plan.ApplyPlan?)
  {
    hide Parsed, AreaOf, Updated, Analysed, InputOf, Hashing.InputHash, RequestHashOf, Db.RunFor, Db.ConflictsByID, Db.ActiveNeighbours;
  }

  lemma ReadsDerive(lib: Library, db: Db, actor: Actor, req: Request, p: Progress)
    requires Sound(lib, db) && Fits(lib, req, p) && CallSound(lib, db, Call(actor, req, p)) && Derives(db, actor, p) && !p.Ready?
    ensures Derives(db, actor, Advance(lib, db, actor, req, p).1)
  {
    hide Sound, Parsed, AreaOf, DefaultRationale, SeenConflict, PlanSound, AnswerSound, HashAgrees, RunAnswers, FollowsVersion;
    match p
    case ConflictRead(conflict) => StoredVersions(lib, db);
    case SourceRead(conflict, proposal) =>
    case _ =>
      hide Advance, CallSound, Fits, Suggested;
      OtherReads(lib, db, actor, req, p);
  }

  lemma StoredVersions(lib: Library, db: Db)
    requires Sound(lib, db)
    ensures forall id | id in db.proposals :: db.proposals[id].id == id && FollowsVersion(db, id, db.proposals[id].version + 1)
  {
    hide Sound, Replay, LegalLog, ParcelsSound, ConflictsSound, AppliedSound, RunsSound, Mirrors, DraftSound;
    SoundLedger(lib, db);
    SoundRuns(lib, db);
    forall id | id in db.proposals ensures FollowsVersion(db, id, db.proposals[id].version + 1) {
      assert ReviewSound(db.proposals[id], Replay(db.audits).proposals[id].born);
    }
  }

  lemma CommitDerives(lib: Library, db: Db, actor: Actor, req: Request, plan: Plan)
    requires plan.DetectPlan? ==> req.DetectConflicts?
    requires Sound(lib, db) && DerivationsSound(db) && PlanSound(lib, db, actor, req, plan) && Derives(db, actor, Ready(plan))
    requires Commit(db, actor, req, plan).Some?
    ensures DerivationsSound(Commit(db, actor, req, plan).value)
  {
    hide Sound, DerivationsSound, PlanSound, Follows, Apply, Derives, Replay, LegalLog, Mirrors, ParcelsSound, ProposalsSound, ConflictsSound,
      AppliedSound;
    match plan
    case ApplyPlan(conflict, draft) => ApplicationKeepsDerivations(lib, db, actor, req, conflict, draft);
    case _ =>
      hide Commit;
      CommitKeepsSound(lib, db, actor, req, plan);
      SoundLedger(lib, Commit(db, actor, req, plan).value);
      OtherCommitsApplyNone(db, actor, req, plan);
      DerivationsStay(db, Commit(db, actor, req, plan).value);
  }
}
