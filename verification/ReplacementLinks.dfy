/**
  The links from superseded observations to their replacements: where they lead, and what
  one transaction does to them.
 */
module ReplacementLinks {
  import opened Options
  import opened Boundaries
  import opened Lifecycles
  import opened Records
  import opened Invariants
  import opened Requests
  import opened Calls
  import opened Transactions
  import opened Interleaving
  import opened Histories
  import opened Staleness
  import AuditTrail
  import Commits

  type Rows = map<nat, Observation>

  /** `n` links lead from `i` to `j`. */
  predicate Leads(rows: Rows, i: nat, j: nat, n: nat)
    decreases n
  {
    i in rows &&
    if n == 0 then i == j
    else rows[i].replacedBy.Some? && Leads(rows, rows[i].replacedBy.value, j, n - 1)
  }

  /** `n` links lead from `i` to `e`, where the chain stops. */
  predicate Ends(rows: Rows, i: nat, e: nat, n: nat) {
    Leads(rows, i, e, n) && e in rows && rows[e].replacedBy.None?
  }

  ghost predicate HasEnd(rows: Rows, i: nat) {
    exists e: nat, n: nat :: Ends(rows, i, e, n)
  }

  ghost predicate EveryChainEnds(rows: Rows) {
    forall i | i in rows :: HasEnd(rows, i)
  }

  // --- Following links --------------------------------------------------------------------

  lemma {:induction false} LeadsInOneWay(rows: Rows, i: nat, j: nat, n: nat, e: nat, m: nat)
    requires Leads(rows, i, j, n) && Ends(rows, i, e, m)
    ensures n <= m && Ends(rows, j, e, m - n)
    decreases n
  {
    if n > 0 {
      LeadsInOneWay(rows, rows[i].replacedBy.value, j, n - 1, e, m - 1);
    }
  }

  /** A chain has one end. */
  lemma {:induction false} EndIsUnique(rows: Rows, i: nat, e: nat, n: nat, f: nat, m: nat)
    requires Ends(rows, i, e, n) && Ends(rows, i, f, m)
    ensures e == f && n == m
  {
    LeadsInOneWay(rows, i, e, n, f, m);
  }

  lemma {:induction false} LeadsOnward(rows: Rows, i: nat, j: nat, n: nat, k: nat, m: nat)
    requires Leads(rows, i, j, n) && Leads(rows, j, k, m)
    ensures Leads(rows, i, k, n + m)
    decreases n
  {
    if n > 0 {
      LeadsOnward(rows, rows[i].replacedBy.value, j, n - 1, k, m);
    }
  }

  /** What leads back to itself never ends. */
  lemma {:induction false} CyclesDoNotEnd(rows: Rows, i: nat, n: nat, e: nat, m: nat)
    requires n > 0 && Leads(rows, i, i, n)
    ensures !Ends(rows, i, e, m)
    decreases m
  {
    if Ends(rows, i, e, m) {
      LeadsInOneWay(rows, i, i, n, e, m);
      CyclesDoNotEnd(rows, i, n, e, m - n);
    }
  }

  // --- One supersession --------------------------------------------------------------------

  /** The same rows and links, except that `i` is now replaced by `r`. */
  predicate Linked(rows: Rows, after: Rows, i: nat, r: nat) {
    && rows.Keys == after.Keys && i in rows && rows[i].replacedBy.None? && after[i].replacedBy == Some(r)
    && forall j | j in rows && j != i :: after[j].replacedBy == rows[j].replacedBy
  }

  lemma {:induction false} OtherChainsStay(rows: Rows, after: Rows, i: nat, r: nat, j: nat, e: nat, n: nat)
    requires Linked(rows, after, i, r) && Ends(rows, j, e, n)
    ensures e != i ==> Ends(after, j, e, n)
    ensures e == i ==> Leads(after, j, i, n)
    decreases n
  {
    if n > 0 {
      OtherChainsStay(rows, after, i, r, rows[j].replacedBy.value, e, n - 1);
      if j == i {
        assert false;
      }
    }
  }

  /** Superseding `i` by `r` leaves every chain ending exactly when the chain of `r` does not end at `i` itself. */
  lemma SupersessionIsSafeExactlyWhen(rows: Rows, after: Rows, i: nat, r: nat, e: nat, n: nat)
    requires EveryChainEnds(rows) && Linked(rows, after, i, r) && Ends(rows, r, e, n)
    ensures EveryChainEnds(after) <==> e != i
  {
    OtherChainsStay(rows, after, i, r, r, e, n);
    assert Leads(after, i, e, n + 1);
    if e == i {
      forall f, m ensures !Ends(after, i, f, m) {
        CyclesDoNotEnd(after, i, n + 1, f, m);
      }
      assert !HasEnd(after, i);
    } else {
      assert Ends(after, e, e, 0);
      forall j | j in after ensures HasEnd(after, j) {
        var f: nat, m: nat :| Ends(rows, j, f, m);
        ChainAfterLink(rows, after, i, r, e, n, j, f, m);
      }
    }
  }

  lemma ChainAfterLink(rows: Rows, after: Rows, i: nat, r: nat, e: nat, n: nat, j: nat, f: nat, m: nat)
    requires Linked(rows, after, i, r) && Ends(rows, j, f, m)
    requires Leads(after, i, e, n + 1) && e in after && after[e].replacedBy.None?
    ensures HasEnd(after, j)
  {
    OtherChainsStay(rows, after, i, r, j, f, m);
    hide Linked;
    if f == i {
      LeadsOnward(after, j, i, m, e, n + 1);
      assert Ends(after, j, e, m + n + 1);
    }
  }

  // --- Rows that keep their links -------------------------------------------------------------

  lemma {:induction false} ChainsKept(rows: Rows, after: Rows, j: nat, e: nat, n: nat)
    requires forall i | i in rows :: i in after && after[i].replacedBy == rows[i].replacedBy
    requires Ends(rows, j, e, n)
    ensures Ends(after, j, e, n)
    decreases n
  {
    if n > 0 {
      ChainsKept(rows, after, rows[j].replacedBy.value, e, n - 1);
    }
  }

  lemma ChainsCarryOver(rows: Rows, after: Rows)
    requires EveryChainEnds(rows) && forall i | i in rows :: i in after && after[i].replacedBy == rows[i].replacedBy
    ensures forall j | j in rows :: HasEnd(after, j)
  {
    forall j | j in rows ensures HasEnd(after, j) {
      var e: nat, n: nat :| Ends(rows, j, e, n);
      ChainsKept(rows, after, j, e, n);
    }
  }

  /** Links that are there stay as they are and lead to rows that are there. */
  predicate LinksKept(rows: Rows, after: Rows) {
    forall i | i in rows ::
      i in after && (rows[i].replacedBy.Some? ==> rows[i].replacedBy.value in rows && after[i].replacedBy == rows[i].replacedBy)
  }

  /** A chain that ends after more links ended before, at the latest there. */
  lemma {:induction false} ChainsEndedBefore(rows: Rows, after: Rows, j: nat, e: nat, n: nat)
    requires LinksKept(rows, after) && j in rows && Ends(after, j, e, n)
    ensures HasEnd(rows, j)
    decreases n
  {
    if rows[j].replacedBy.None? {
      assert Ends(rows, j, j, 0);
    } else {
      var k := rows[j].replacedBy.value;
      ChainsEndedBefore(rows, after, k, e, n - 1);
      var f: nat, m: nat :| Ends(rows, k, f, m);
      assert Ends(rows, j, f, m + 1);
    }
  }

  lemma EndlessStaysEndless(rows: Rows, after: Rows)
    requires LinksKept(rows, after) && EveryChainEnds(after)
    ensures EveryChainEnds(rows)
  {
    forall j | j in rows ensures HasEnd(rows, j) {
      var e: nat, n: nat :| Ends(after, j, e, n);
      ChainsEndedBefore(rows, after, j, e, n);
    }
  }

  // --- One transaction ----------------------------------------------------------------------------

  /** The plan supersedes an observation that its replacement leads back to. */
  ghost predicate ClosesLoop(db: Db, plan: Plan) {
    plan.ChangeObservationPlan? && plan.replacement.Some? &&
    LeadsBack(db.observations, plan.replacement.value, plan.observationBefore.id)
  }

  /** What a transaction does to the observations. */
  lemma ObservationsWritten(lib: Library, db: Db, actor: Actor, req: Request, plan: Plan)
    requires plan.DetectPlan? ==> req.DetectConflicts?
    requires Sound(lib, db) && PlanSound(lib, db, actor, req, plan) && Commit(db, actor, req, plan).Some?
    ensures var rows, after := db.observations, Commit(db, actor, req, plan).value.observations;
      match plan
      case ImportPlan(item) => db.next.observation !in rows && item.replacedBy.None? && after == rows[db.next.observation := item.(id := db.next.observation)]
      case ChangeObservationPlan(before, to, replacement, note) =>
        && before.id in rows && rows[before.id] == before && before.replacedBy.None?
        && after == rows[before.id := Commits.ReplacedRow(before, to, replacement, note)]
      case _ => after == rows
  {
    hide Sound, SeenObservation, SeenParcel, SeenProposal, SeenConflict, BoundarySound, DraftSound, DetectionsFit, HashAgrees, Detect, Apply;
    match plan
    case ImportPlan(_) => KnownObservations(lib, db);
    case ChangeObservationPlan(before, to, replacement, note) =>
      KnownObservations(lib, db);
      CommittedRow(lib, db, actor, req, plan);
    case _ => OnlyTheseTouchObservations(db, actor, req, plan);
  }

  lemma KnownObservations(lib: Library, db: Db)
    requires Sound(lib, db)
    ensures db.next.observation !in db.observations
    ensures forall id | id in db.observations && db.observations[id].state != Superseded :: db.observations[id].replacedBy.None?
  {
    hide Core;
    SoundRuns(lib, db);
    UnsettledRows(lib, db);
  }

  lemma OnlyTheseTouchObservations(db: Db, actor: Actor, req: Request, plan: Plan)
    requires plan.DetectPlan? ==> req.DetectConflicts?
    requires Commit(db, actor, req, plan).Some? && !plan.ImportPlan? && !plan.ChangeObservationPlan?
    ensures Commit(db, actor, req, plan).value.observations == db.observations
  {
    hide AddConflicts;
    if plan.DetectPlan? {
      ConflictsInserted(db, actor, plan.parcelID, plan.detections);
    }
  }

  lemma StoredLinks(lib: Library, db: Db)
    requires Sound(lib, db)
    ensures forall i | i in db.observations && db.observations[i].replacedBy.Some? ::
      && db.observations[i].replacedBy.value in db.observations
      && db.observations[db.observations[i].replacedBy.value].parcelID == db.observations[i].parcelID
  {
    hide AuditTrail.Replay, AuditTrail.LegalLog, AuditTrail.Mirrors, ParcelsSound, ProposalsSound, ConflictsSound, AppliedSound, RunsSound, KeysSound;
    assert forall i | i in db.observations :: ObservationSound(db, db.observations[i]);
  }

  /** A transaction leaves every chain ending exactly when every chain ended before and it closes no loop. */
  lemma CommitKeepsChainsExactlyWhen(lib: Library, db: Db, actor: Actor, req: Request, plan: Plan)
    requires plan.DetectPlan? ==> req.DetectConflicts?
    requires Sound(lib, db) && PlanSound(lib, db, actor, req, plan) && Commit(db, actor, req, plan).Some?
    ensures EveryChainEnds(Commit(db, actor, req, plan).value.observations) <==> EveryChainEnds(db.observations) && !ClosesLoop(db, plan)
  {
    hide Sound, Commit, PlanSound, EveryChainEnds;
    ObservationsWritten(lib, db, actor, req, plan);
    StoredLinks(lib, db);
    var rows, after := db.observations, Commit(db, actor, req, plan).value.observations;
    match plan
    case ImportPlan(item) => PlainRowAdded(rows, after, db.next.observation);
    case ChangeObservationPlan(before, to, replacement, note) =>
      ReplacementIsStored(lib, db, actor, req, plan);
      if replacement.Some? {
        RowSuperseded(rows, after, before.id, replacement.value);
      } else {
        SameLinks(rows, after);
      }
    case _ =>
  }

  lemma ReplacementIsStored(lib: Library, db: Db, actor: Actor, req: Request, plan: Plan)
    requires plan.ChangeObservationPlan? && PlanSound(lib, db, actor, req, plan)
    ensures plan.replacement.Some? ==> plan.toObservation == Superseded && plan.replacement.value in db.observations
    ensures plan.replacement.None? ==> plan.toObservation != Superseded
  {
    hide SeenObservation;
  }

  lemma PlainRowAdded(rows: Rows, after: Rows, n: nat)
    requires n !in rows && n in after && after[n].replacedBy.None? && after == rows[n := after[n]] && LinksKept(rows, rows)
    ensures EveryChainEnds(after) <==> EveryChainEnds(rows)
  {
    if EveryChainEnds(rows) {
      assert Ends(after, n, n, 0);
      ChainsCarryOver(rows, after);
    }
    if EveryChainEnds(after) {
      EndlessStaysEndless(rows, after);
    }
  }

  lemma SameLinks(rows: Rows, after: Rows)
    requires rows.Keys == after.Keys && forall i | i in rows :: after[i].replacedBy == rows[i].replacedBy
    ensures EveryChainEnds(after) <==> EveryChainEnds(rows)
  {
    if EveryChainEnds(rows) {
      ChainsCarryOver(rows, after);
    }
    if EveryChainEnds(after) {
      ChainsCarryOver(after, rows);
    }
  }

  ghost predicate LeadsBack(rows: Rows, r: nat, i: nat) {
    exists n: nat :: Leads(rows, r, i, n)
  }

  lemma LeadsBackExactlyWhen(rows: Rows, r: nat, i: nat, e: nat, n: nat)
    requires Ends(rows, r, e, n) && i in rows && rows[i].replacedBy.None?
    ensures LeadsBack(rows, r, i) <==> e == i
  {
    if LeadsBack(rows, r, i) {
      var m: nat :| Leads(rows, r, i, m);
      EndIsUnique(rows, r, i, m, e, n);
    }
  }

  lemma RowSuperseded(rows: Rows, after: Rows, i: nat, r: nat)
    requires Linked(rows, after, i, r) && r in rows && LinksKept(rows, rows)
    ensures EveryChainEnds(after) <==> EveryChainEnds(rows) && !LeadsBack(rows, r, i)
  {
    hide Leads, Ends, LeadsBack;
    assert i in rows && rows[i].replacedBy.None? && LinksKept(rows, after);
    hide Linked, LinksKept;
    if EveryChainEnds(after) {
      EndlessStaysEndless(rows, after);
    }
    if EveryChainEnds(rows) {
      assert HasEnd(rows, r);
      var e: nat, n: nat :| Ends(rows, r, e, n);
      SupersessionIsSafeExactlyWhen(rows, after, i, r, e, n);
      LeadsBackExactlyWhen(rows, r, i, e, n);
    }
  }

  // --- Replacements that were good when they were named -------------------------------------------------

  /** There, and not superseded unless it has a replacement of its own: not imported as superseded. */
  predicate Live(rows: Rows, r: nat) {
    r in rows && (rows[r].state == Superseded ==> rows[r].replacedBy.Some?)
  }

  predicate LinksLive(rows: Rows) {
    forall i | i in rows && rows[i].replacedBy.Some? :: Live(rows, rows[i].replacedBy.value)
  }

  predicate TargetLive(db: Db, p: Progress) {
    p.Ready? && p.plan.ChangeObservationPlan? && p.plan.replacement.Some? ==> Live(db.observations, p.plan.replacement.value)
  }

  lemma LiveStays(a: Db, b: Db)
    requires Follows(a, b)
    ensures forall r | Live(a.observations, r) :: Live(b.observations, r)
    ensures forall p | TargetLive(a, p) :: TargetLive(b, p)
  {
    hide AuditTrail.Replay;
  }

  /** A plan made just now names a replacement that is not superseded, and is another observation. */
  predicate Fresh(db: Db, p: Progress) {
    p.Ready? && p.plan.ChangeObservationPlan? && p.plan.replacement.Some? ==>
      var r := p.plan.replacement.value;
      r in db.observations && db.observations[r].state != Superseded && r != p.plan.observationBefore.id
  }

  lemma ReadsAreFresh(lib: Library, db: Db, actor: Actor, req: Request, p: Progress)
    requires Fits(lib, req, p) && CallSound(lib, db, Call(actor, req, p)) && !p.Ready?
    ensures Fresh(db, Advance(lib, db, actor, req, p).1)
    ensures TargetLive(db, Advance(lib, db, actor, req, p).1)
  {
    hide Parsed, AreaOf, Updated, SeenObservation, SeenParcel, SeenProposal, SeenConflict, RunAnswers, AnswerSound, HashAgrees,
      Db.RunFor, Db.ConflictsByID, Db.RunKeyTaken, Analyse, PlanSound;
    if p.ParcelOfProposalRead? {
      AnalysisPlans(lib, db, req, p.proposal, p.parcel);
    }
  }

  lemma CommitKeepsLinksLive(lib: Library, db: Db, actor: Actor, req: Request, plan: Plan)
    requires plan.DetectPlan? ==> req.DetectConflicts?
    requires Sound(lib, db) && PlanSound(lib, db, actor, req, plan) && Commit(db, actor, req, plan).Some?
    requires LinksLive(db.observations) && TargetLive(db, Ready(plan))
    ensures LinksLive(Commit(db, actor, req, plan).value.observations)
  {
    hide Sound, Commit, PlanSound, Follows, Live;
    var d := Commit(db, actor, req, plan).value;
    ObservationsWritten(lib, db, actor, req, plan);
    CommitKeepsSound(lib, db, actor, req, plan);
    LiveStays(db, d);
  }

  /** Where a live chain ends after at least one link, the observation is not superseded, and on the same parcel. */
  lemma {:induction false} EndIsLive(lib: Library, db: Db, i: nat, e: nat, n: nat)
    requires Sound(lib, db) && LinksLive(db.observations) && Ends(db.observations, i, e, n)
    ensures db.observations[e].parcelID == db.observations[i].parcelID
    ensures n > 0 ==> db.observations[e].state != Superseded
    decreases n
  {
    hide Sound;
    if n > 0 {
      StoredLinks(lib, db);
      EndIsLive(lib, db, db.observations[i].replacedBy.value, e, n - 1);
    }
  }
}
