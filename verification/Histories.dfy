/** What the audit log and the stored rows say about the past, after any run. */
module Histories {
  import opened Boundaries
  import opened Lifecycles
  import opened Records
  import opened AuditTrail
  import opened Invariants
  import opened Requests
  import opened Calls
  import opened Transactions
  import opened Interleaving

  /** Replaying the log from empty yields every stored lifecycle, and every entry continues the one before it. */
  lemma LogRebuildsTheDatabase(lib: Library, moves: seq<Move>)
    ensures LegalLog(Run(lib, moves).db.audits)
    ensures Mirrors(Replay(Run(lib, moves).db.audits), Run(lib, moves).db)
  {
    hide Run, Mirrors, LegalLog;
    EveryRunIsSound(lib, moves);
  }

  // --- Transactions write from what is still true ------------------------------------------

  /** The `before` snapshot of a committed change is the row it overwrites, though it was read outside the transaction. */
  lemma SnapshotIsTheRow(lib: Library, moves: seq<Move>, i: nat)
    requires i < |Run(lib, moves).calls| && Run(lib, moves).calls[i].progress.Ready?
    requires var s := Run(lib, moves); var call := s.calls[i]; Commit(s.db, call.actor, call.req, call.progress.plan).Some?
    ensures var db := Run(lib, moves).db;
      match Run(lib, moves).calls[i].progress.plan
      case ChangeObservationPlan(before, _, _, _) => before.id in db.observations && db.observations[before.id] == before
      case ChangeProposalPlan(before, _, _) => before.id in db.proposals && db.proposals[before.id] == before
      case ChangeConflictPlan(before, _) => before.id in db.conflicts && db.conflicts[before.id] == before
      case ApplyPlan(before, _) => before.id in db.conflicts && db.conflicts[before.id] == before
      case UpdateParcelPlan(before, _, version) =>
        before.id in db.parcels && (db.parcels[before.id] == before <==> version == before.version)
      case _ => true
  {
    hide Run, Sound, Commit, PlanSound;
    EveryRunIsSound(lib, moves);
    var s := Run(lib, moves);
    var call := s.calls[i];
    ReadyOrAnswered(lib, s.db, call.actor, call.req, call.progress);
    assert call == Call(call.actor, call.req, call.progress);
    CommittedRow(lib, s.db, call.actor, call.req, call.progress.plan);
  }

  lemma CommittedRow(lib: Library, db: Db, actor: Actor, req: Request, plan: Plan)
    requires Sound(lib, db) && PlanSound(lib, db, actor, req, plan)
    requires Commit(db, actor, req, plan).Some?
    ensures match plan
      case ChangeObservationPlan(before, _, _, _) => before.id in db.observations && db.observations[before.id] == before
      case ChangeProposalPlan(before, _, _) => before.id in db.proposals && db.proposals[before.id] == before
      case ChangeConflictPlan(before, _) => before.id in db.conflicts && db.conflicts[before.id] == before
      case ApplyPlan(before, _) => before.id in db.conflicts && db.conflicts[before.id] == before
      case UpdateParcelPlan(before, _, version) =>
        before.id in db.parcels && (db.parcels[before.id] == before <==> version == before.version)
      case _ => true
  {
    hide Sound, Replay, Db.Audit, Apply, DraftSound, BoundarySound, SeenParcel, SameDraft, DetectionsFit, HashAgrees;
    if plan.UpdateParcelPlan? {
      SeenAtVersion(lib, db, plan.parcelBefore);
    } else if plan.ApplyPlan? {
      AppliedState(db, actor, plan.conflictBefore, plan.proposal);
    }
  }

  lemma AppliedState(db: Db, actor: Actor, conflict: Conflict, derived: Proposal)
    requires Apply(db, actor, conflict, derived).Some?
    ensures conflict.id in db.conflicts && db.conflicts[conflict.id].state == conflict.state
  {
  }

  /** A parcel version names one content: a snapshot with the row's version is the row. */
  lemma SeenAtVersion(lib: Library, db: Db, p: Parcel)
    requires Sound(lib, db) && SeenParcel(db, p)
    ensures p.id in db.parcels && (db.parcels[p.id] == p <==> db.parcels[p.id].version == p.version)
  {
    hide Replay, LegalLog, ProposalsSound, ConflictsSound, AppliedSound, RunsSound, ObservationsSound, ParcelsSound;
    assert ParcelAgrees(db.parcels[p.id], Replay(db.audits).parcels[p.id]);
  }

  // --- Parcels and drafts -----------------------------------------------------------------------

  /** Every stored area is the area of the stored boundary, which always parses. */
  lemma AreasAreExact(lib: Library, moves: seq<Move>, id: nat)
    requires id in Run(lib, moves).db.parcels
    ensures BoundarySound(lib, Run(lib, moves).db.parcels[id])
  {
    hide Run, Sound;
    EveryRunIsSound(lib, moves);
    RowsAreSeen(lib, Run(lib, moves).db);
  }

  /** The log keeps every boundary a parcel has had: the row at any earlier moment is the entry of its version. */
  lemma HistoryIsKept(lib: Library, moves: seq<Move>, n: nat, id: nat)
    requires n <= |moves| && id in Run(lib, moves[..n]).db.parcels
    ensures SeenParcel(Run(lib, moves).db, Run(lib, moves[..n]).db.parcels[id])
  {
    hide Run, Sound, Follows, SeenParcel;
    EveryRunIsSound(lib, moves[..n]);
    RowsAreSeen(lib, Run(lib, moves[..n]).db);
    RunsOnlyEvolve(lib, moves, n);
    SeenStays(Run(lib, moves[..n]).db, Run(lib, moves).db);
  }

  /**
    A draft's area delta is the area of its geometry less that of the boundary its parcel had at
    the base version, which the parcel has reached; so for drafts derived from suggestions too.
   */
  lemma DeltasAreHistorical(lib: Library, moves: seq<Move>, id: nat)
    requires id in Run(lib, moves).db.proposals
    ensures var db := Run(lib, moves).db; var p, l := db.proposals[id], Replay(db.audits);
      && p.parcelID in db.parcels && p.parcelID in l.parcels
      && 1 <= p.baseVersion <= db.parcels[p.parcelID].version == |l.parcels[p.parcelID]|
      && p.areaDelta == AreaOf(lib, p.geometry) - AreaOf(lib, l.parcels[p.parcelID][p.baseVersion - 1].boundary)
  {
    hide Run, Sound, LegalLog, Replay, Mirrors, ParcelsSound, ProposalsSound, Parsed, AreaOf;
    EveryRunIsSound(lib, moves);
    var db := Run(lib, moves).db;
    SoundLedger(lib, db);
    DeltaIsHistorical(lib, db, Replay(db.audits), id);
  }

  lemma SoundLedger(lib: Library, db: Db)
    requires Sound(lib, db)
    ensures var l := Replay(db.audits);
      && LegalLog(db.audits) && Mirrors(l, db) && ParcelsSound(lib, l) && ProposalsSound(lib, db, l)
      && ConflictsSound(lib, db, l) && AppliedSound(db, l, {})
  {
    hide LegalLog, Replay, Mirrors, ParcelsSound, ProposalsSound, ConflictsSound, AppliedSound, KeysSound, RunsSound;
  }

  lemma DeltaIsHistorical(lib: Library, db: Db, l: Ledger, id: nat)
    requires Mirrors(l, db) && ParcelsSound(lib, l) && ProposalsSound(lib, db, l) && id in db.proposals
    ensures var p := db.proposals[id];
      && p.parcelID in db.parcels && p.parcelID in l.parcels
      && 1 <= p.baseVersion <= db.parcels[p.parcelID].version == |l.parcels[p.parcelID]|
      && p.areaDelta == AreaOf(lib, p.geometry) - AreaOf(lib, l.parcels[p.parcelID][p.baseVersion - 1].boundary)
  {
    hide Parsed, AreaOf, ReviewSound, SameDraft;
    var p := db.proposals[id];
    assert DraftSound(lib, l, p);
    assert BoundarySound(lib, l.parcels[p.parcelID][p.baseVersion - 1]);
    assert ParcelAgrees(db.parcels[p.parcelID], l.parcels[p.parcelID]);
  }

  /**
    What detection loads is always there and always parses: from a proposal read at any time,
    the next step reads its parcel and goes on, with neither a missing row nor a rejected geometry.
   */
  lemma StoredGeometryIsUsable(lib: Library, db: Db, p: Proposal)
    requires Sound(lib, db) && SeenProposal(db, p)
    ensures p.parcelID in db.parcels && LoadParcel(lib, db, p) == ParcelOfProposalRead(p, db.parcels[p.parcelID])
  {
    hide Sound, SeenProposal, Parsed;
    StoredDraftParses(lib, db, p);
  }

  lemma StoredDraftParses(lib: Library, db: Db, p: Proposal)
    requires Sound(lib, db) && SeenProposal(db, p)
    ensures p.parcelID in db.parcels && Parsed(lib, p.geometry).Some? && Parsed(lib, db.parcels[p.parcelID].boundary).Some?
  {
    hide Sound, Parsed, AreaOf, Mirrors, LegalLog, Replay, ConflictsSound, AppliedSound, ParcelsSound, ReviewSound, SeenParcel;
    SoundLedger(lib, db);
    RowsAreSeen(lib, db);
    assert DraftSound(lib, Replay(db.audits), db.proposals[p.id]);
  }

  /** The version counts a proposal's moves modulo the cycle, and no proposal is reviewed by its author. */
  lemma PhasesAreInStep(lib: Library, moves: seq<Move>, id: nat)
    requires id in Run(lib, moves).db.proposals
    ensures var db := Run(lib, moves).db; var p, l := db.proposals[id], Replay(db.audits);
      && id in l.proposals && l.proposals[id].born.version <= p.version
      && Phase(p.state) == (p.version - l.proposals[id].born.version) % 5
      && (Phase(p.state) >= 3 ==> p.reviewedBy.Some?)
      && (p.reviewedBy.Some? ==> p.reviewedBy.value != p.createdBy)
  {
    hide Run, Phase, DraftSound, Mirrors, LegalLog, ParcelsSound, ObservationsSound, ConflictsSound, AppliedSound, RunsSound, KeysSound, Replay;
    EveryRunIsSound(lib, moves);
    var db := Run(lib, moves).db;
    assert ReviewSound(db.proposals[id], Replay(db.audits).proposals[id].born);
  }

  // --- Conflicts ------------------------------------------------------------------------------------

  function Count(audits: seq<Entry>, action: Action, id: nat): nat {
    if |audits| == 0 then 0
    else
      var last := audits[|audits| - 1];
      Count(audits[..|audits| - 1], action, id) + if last.action == action && last.resourceID == id then 1 else 0
  }

  /** The log's account of one conflict: its moves are its path, and an application is recorded once. */
  predicate ConflictCounted(audits: seq<Entry>, c: nat) {
    var l := Replay(audits);
    var moves := Count(audits, ConflictStateChanged, c) + Count(audits, ConflictSuggestionApplied, c);
    && (c in l.conflicts ==> moves + 1 == |l.conflicts[c].path|)
    && (c !in l.conflicts ==> moves == 0 && c !in l.applied)
    && Count(audits, ConflictSuggestionApplied, c) == (if c in l.applied then 1 else 0)
  }

  lemma {:induction false} ConflictsAreCounted(audits: seq<Entry>, c: nat)
    requires LegalLog(audits)
    ensures ConflictCounted(audits, c)
  {
    if |audits| > 0 {
      var earlier, last := audits[..|audits| - 1], audits[|audits| - 1];
      ConflictsAreCounted(earlier, c);
      ConflictCountedOn(audits, Replay(earlier), last, c);
    }
  }

  predicate MovesConflict(e: Entry, c: nat) {
    e.resourceID == c && (e.action == ConflictStateChanged || e.action == ConflictSuggestionApplied)
  }

  predicate ConcernsConflicts(e: Entry) {
    e.action == ConflictDetected || e.action == ConflictStateChanged || e.action == ConflictSuggestionApplied
  }

  lemma OthersKeepConflicts(l: Ledger, e: Entry)
    requires !ConcernsConflicts(e)
    ensures Recorded(l, e).conflicts == l.conflicts
  {
    hide MovedProposal, MovedConflict;
  }

  /** A detection starts a path, and a move adds one state to one. */
  lemma ConflictRecorded(l: Ledger, e: Entry)
    requires ConcernsConflicts(e) && Legal(l, e)
    ensures var m, c := Recorded(l, e), e.resourceID;
      && c in m.conflicts && m.conflicts == l.conflicts[c := m.conflicts[c]]
      && (c in l.conflicts <==> e.action != ConflictDetected)
      && |m.conflicts[c].path| == if c in l.conflicts then |l.conflicts[c].path| + 1 else 1
  {
    hide CanConflictTransition, MovedProposal;
  }

  lemma RecordedForConflict(l: Ledger, e: Entry, c: nat)
    requires Legal(l, e)
    ensures var m := Recorded(l, e);
      && (MovesConflict(e, c) ==> c in l.conflicts)
      && (c in l.conflicts ==> c in m.conflicts && |m.conflicts[c].path| == |l.conflicts[c].path| + if MovesConflict(e, c) then 1 else 0)
      && (c !in l.conflicts && c in m.conflicts ==> |m.conflicts[c].path| == 1)
  {
    hide Legal, Recorded;
    if ConcernsConflicts(e) {
      ConflictRecorded(l, e);
    } else {
      OthersKeepConflicts(l, e);
    }
  }

  lemma RecordedApplication(l: Ledger, e: Entry, c: nat)
    requires Legal(l, e)
    ensures var m := Recorded(l, e);
      && (e.action == ConflictSuggestionApplied && e.resourceID == c ==> c !in l.applied && c in l.conflicts && c in m.applied)
      && (!(e.action == ConflictSuggestionApplied && e.resourceID == c) ==> (c in m.applied <==> c in l.applied))
  {
    hide CanProposalTransition, CanTransitionObservation, CanConflictTransition;
  }

  lemma ConflictCountedOn(audits: seq<Entry>, l: Ledger, last: Entry, c: nat)
    requires |audits| > 0 && last == audits[|audits| - 1] && l == Replay(audits[..|audits| - 1])
    requires Legal(l, last) && ConflictCounted(audits[..|audits| - 1], c)
    ensures ConflictCounted(audits, c)
  {
    assert Replay(audits) == Recorded(l, last);
    hide Replay, Recorded, Legal;
    RecordedForConflict(l, last, c);
    RecordedApplication(l, last, c);
  }

  lemma DerivedAreRecorded(l: Ledger, e: Entry)
    requires Legal(l, e) && l.derived <= l.proposals.Keys
    ensures Recorded(l, e).derived <= Recorded(l, e).proposals.Keys
  {
    hide Legal, MovedProposal, MovedConflict, IsProposalReviewTransition;
    var m := Recorded(l, e);
    assert e.action != ProposalCreatedFromConflict ==> m.derived == l.derived;
    assert l.proposals.Keys <= m.proposals.Keys;
  }

  lemma RecordedDerivation(l: Ledger, e: Entry, p: nat)
    requires Legal(l, e) && l.derived <= l.proposals.Keys
    ensures e.action == ProposalCreatedFromConflict && e.resourceID == p ==> p !in l.derived && p in Recorded(l, e).derived
    ensures !(e.action == ProposalCreatedFromConflict && e.resourceID == p) ==> (p in Recorded(l, e).derived <==> p in l.derived)
  {
    hide CanProposalTransition, CanTransitionObservation, CanConflictTransition;
  }

  lemma {:induction false} DerivedAreCounted(audits: seq<Entry>, p: nat)
    requires LegalLog(audits)
    ensures Count(audits, ProposalCreatedFromConflict, p) == if p in Replay(audits).derived then 1 else 0
    ensures Replay(audits).derived <= Replay(audits).proposals.Keys
  {
    hide Recorded, Legal;
    if |audits| > 0 {
      DerivedAreCounted(audits[..|audits| - 1], p);
      RecordedDerivation(Replay(audits[..|audits| - 1]), audits[|audits| - 1], p);
      DerivedAreRecorded(Replay(audits[..|audits| - 1]), audits[|audits| - 1]);
    }
  }

  lemma {:induction false} PathIsShort(life: ConflictLife, k: nat)
    requires PathSound(life) && k < |life.path|
    ensures Rank(life.path[k]) + k <= 4
  {
    if k > 0 {
      PathIsShort(life, k - 1);
    }
  }

  /** A conflict enters no state twice, moves at most four times, and its suggestion is applied at most once. */
  lemma ConflictLivesAreShort(lib: Library, moves: seq<Move>, c: nat)
    requires c in Run(lib, moves).db.conflicts
    ensures var audits := Run(lib, moves).db.audits;
      && c in Replay(audits).conflicts
      && Count(audits, ConflictStateChanged, c) + Count(audits, ConflictSuggestionApplied, c) <= 4
      && Count(audits, ConflictSuggestionApplied, c) <= 1
    ensures var db := Run(lib, moves).db; var path := Replay(db.audits).conflicts[c].path;
      && |path| > 0 && path[0] == Detected && path[|path| - 1] == db.conflicts[c].state
      && forall i, j | 0 <= i < j < |path| :: path[i] != path[j]
  {
    hide Run, Count, LegalLog, Replay, ParcelsSound, ProposalsSound, AppliedSound, RunsSound, ObservationsSound, KeysSound, Parsed;
    EveryRunIsSound(lib, moves);
    var db := Run(lib, moves).db;
    var life := Replay(db.audits).conflicts[c];
    assert ConflictSound(lib, db, db.conflicts[c], life);
    assert ConflictAgrees(db.conflicts[c], life);
    ConflictsAreCounted(db.audits, c);
    PathIsShort(life, |life.path| - 1);
  }

  /** Wherever snapping was on, the stored suggestion parses, so applying it cannot fail on its geometry. */
  lemma SuggestionsParse(lib: Library, moves: seq<Move>, c: nat)
    requires c in Run(lib, moves).db.conflicts
    requires Run(lib, moves).db.conflicts[c].detection.suggestion.tolerance > 0.0
    ensures Parsed(lib, Run(lib, moves).db.conflicts[c].detection.suggestion.snapped).Some?
  {
    hide Run, Sound, Parsed, PathSound, Mirrors, LegalLog, Replay, ParcelsSound, ProposalsSound, AppliedSound;
    EveryRunIsSound(lib, moves);
    var db := Run(lib, moves).db;
    SoundLedger(lib, db);
    assert ConflictSound(lib, db, db.conflicts[c], Replay(db.audits).conflicts[c]);
  }

  /**
    Applied suggestions and derived proposals are in bijection: each applied conflict has one stored
    proposal of its own, and each proposal logged as created from a conflict belongs to one applied conflict.
   */
  lemma ApplicationsAreDerivations(lib: Library, moves: seq<Move>)
    ensures var db := Run(lib, moves).db; var applied := Replay(db.audits).applied;
      && (forall c :: Count(db.audits, ConflictSuggestionApplied, c) == if c in applied then 1 else 0)
      && (forall p :: Count(db.audits, ProposalCreatedFromConflict, p) == if p in applied.Values then 1 else 0)
      && (forall c | c in applied :: applied[c] in db.proposals && c in db.conflicts && Settled(db.conflicts[c].state))
      && (forall c, d | c in applied && d in applied && applied[c] == applied[d] :: c == d)
  {
    hide Run, Count, LegalLog, Replay, ParcelsSound, ProposalsSound, ConflictsSound, RunsSound, ObservationsSound, KeysSound, Mirrors;
    EveryRunIsSound(lib, moves);
    var db := Run(lib, moves).db;
    forall c ensures Count(db.audits, ConflictSuggestionApplied, c) == if c in Replay(db.audits).applied then 1 else 0 {
      ConflictsAreCounted(db.audits, c);
    }
    forall p ensures Count(db.audits, ProposalCreatedFromConflict, p) == if p in Replay(db.audits).applied.Values then 1 else 0 {
      DerivedAreCounted(db.audits, p);
    }
  }
}
