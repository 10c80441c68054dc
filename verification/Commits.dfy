/** Every transaction step keeps the invariant and only lets rows evolve. */
module Commits {
  import opened Options
  import opened Boundaries
  import opened Lifecycles
  import opened Records
  import opened AuditTrail
  import opened Invariants
  import opened Calls

  // --- Parts that a change elsewhere leaves alone -----------------------------------------

  lemma ProposalsStaySound(lib: Library, db: Db, l: Ledger, d: Db, m: Ledger)
    requires ProposalsSound(lib, db, l) && HistoriesGrow(l, m)
    requires d.proposals == db.proposals && m.proposals == l.proposals
    ensures ProposalsSound(lib, d, m)
  {
    hide Parsed, AreaOf;
    forall id | id in d.proposals ensures DraftSound(lib, m, d.proposals[id]) {
      DraftStaysSound(lib, l, m, db.proposals[id]);
    }
  }

  lemma DraftStaysSound(lib: Library, l: Ledger, m: Ledger, p: Proposal)
    requires DraftSound(lib, l, p) && HistoriesGrow(l, m)
    ensures DraftSound(lib, m, p)
  {
    hide Parsed, AreaOf;
    assert m.parcels[p.parcelID][p.baseVersion - 1] == l.parcels[p.parcelID][p.baseVersion - 1];
  }

  lemma ParcelsUntouched(lib: Library, l: Ledger, m: Ledger)
    requires ParcelsSound(lib, l) && m.parcels == l.parcels
    ensures ParcelsSound(lib, m) && HistoriesGrow(l, m)
  {
    hide BoundarySound;
  }

  lemma ObservationsStaySound(db: Db, d: Db)
    requires ObservationsSound(db) && d.observations == db.observations && db.parcels.Keys <= d.parcels.Keys
    ensures ObservationsSound(d)
  {
  }

  lemma ConflictsStaySound(lib: Library, db: Db, l: Ledger, d: Db, m: Ledger)
    requires ConflictsSound(lib, db, l) && d.conflicts == db.conflicts && m.conflicts == l.conflicts
    requires db.proposals.Keys <= d.proposals.Keys
    ensures ConflictsSound(lib, d, m)
  {
    hide Parsed, PathSound;
  }

  lemma AppliedStaysSound(db: Db, l: Ledger, d: Db, m: Ledger, open: set<nat>)
    requires AppliedSound(db, l, open) && m.derived == l.derived && m.applied == l.applied
    requires db.proposals.Keys <= d.proposals.Keys
    requires forall c | c in db.conflicts && Settled(db.conflicts[c].state) :: c in d.conflicts && Settled(d.conflicts[c].state)
    ensures AppliedSound(d, m, open)
  {
  }

  ghost predicate Logged(db: Db, d: Db) {
    db.audits <= d.audits && LegalLog(d.audits)
  }

  // --- A parcel is created -------------------------------------------------------------------

  lemma ParcelLogged(db: Db, actor: Actor, item: Parcel)
    requires AddParcel(db, actor, item).Some?
    ensures var n := db.next.parcel;
      AddParcel(db, actor, item) ==
        Some(db.(parcels := db.parcels[n := item.(id := n)], next := db.next.(parcel := n + 1),
                 audits := db.audits + [EntryOf(actor, ParcelCreated, n, Some(n), Nothing, OfParcel(item.(id := n)))]))
    ensures actor.requestID != ""
  {
  }

  lemma ParcelShape(db: Db, actor: Actor, item: Parcel)
    requires KeysSound(db) && LegalLog(db.audits) && Mirrors(Replay(db.audits), db)
    requires AddParcel(db, actor, item).Some?
    ensures var d, l, n := AddParcel(db, actor, item).value, Replay(db.audits), db.next.parcel;
      && d == db.(parcels := db.parcels[n := item.(id := n)], next := db.next.(parcel := n + 1), audits := d.audits)
      && Replay(d.audits) == l.(parcels := l.parcels[n := [item.(id := n)]])
      && n !in l.parcels && Logged(db, d)
  {
    hide AddParcel, Replay, LegalLog;
    var n := db.next.parcel;
    ParcelLogged(db, actor, item);
    Append(db.audits, EntryOf(actor, ParcelCreated, n, Some(n), Nothing, OfParcel(item.(id := n))));
    assert n !in db.parcels;
  }

  lemma MirrorsParcel(l: Ledger, db: Db, n: nat, row: Parcel, m: Ledger, d: Db)
    requires Mirrors(l, db) && row.version == 1
    requires m == l.(parcels := l.parcels[n := [row]])
    requires d == db.(parcels := db.parcels[n := row], next := d.next, audits := d.audits)
    ensures Mirrors(m, d)
  {
    hide SameDraft;
  }

  lemma KeepsParcel(lib: Library, db: Db, actor: Actor, item: Parcel, open: set<nat>)
    requires Core(lib, db, open) && BoundarySound(lib, item) && item.version == 1
    requires AddParcel(db, actor, item).Some?
    ensures Core(lib, AddParcel(db, actor, item).value, open) && Follows(db, AddParcel(db, actor, item).value)
  {
    hide AddParcel, Replay, LegalLog, KeysSound, Mirrors, ParcelsSound, ProposalsSound, ObservationsSound, ConflictsSound, AppliedSound, Parsed, AreaOf;
    var d, n := AddParcel(db, actor, item).value, db.next.parcel;
    var l, m := Replay(db.audits), Replay(d.audits);
    ParcelShape(db, actor, item);
    KeysParcel(db, n, item.(id := n), d);
    MirrorsParcel(l, db, n, item.(id := n), m, d);
    ParcelsStaySound(lib, l, m, n, item.(id := n));
    ProposalsStaySound(lib, db, l, d, m);
    ObservationsStaySound(db, d);
    ConflictsStaySound(lib, db, l, d, m);
    AppliedStaysSound(db, l, d, m, open);
    RowsStay(db, d);
  }

  lemma KeysParcel(db: Db, n: nat, row: Parcel, d: Db)
    requires KeysSound(db) && n == db.next.parcel && row.id == n
    requires d == db.(parcels := db.parcels[n := row], next := db.next.(parcel := n + 1), audits := d.audits)
    ensures KeysSound(d)
  {
  }

  lemma ParcelsStaySound(lib: Library, l: Ledger, m: Ledger, n: nat, row: Parcel)
    requires ParcelsSound(lib, l) && BoundarySound(lib, row) && row.id == n && n !in l.parcels
    requires m == l.(parcels := l.parcels[n := [row]])
    ensures ParcelsSound(lib, m)
  {
    hide BoundarySound;
  }

  /** Tables that did not change evolve trivially. */
  lemma RowsStay(db: Db, d: Db)
    ensures d.observations == db.observations ==>
      forall id | id in db.observations :: id in d.observations && ObservationEvolves(db.observations[id], d.observations[id])
    ensures d.proposals == db.proposals ==>
      forall id | id in db.proposals :: id in d.proposals && ProposalEvolves(db.proposals[id], d.proposals[id])
    ensures d.conflicts == db.conflicts ==>
      forall id | id in db.conflicts :: id in d.conflicts && ConflictEvolves(db.conflicts[id], d.conflicts[id])
  {
  }

  // --- A parcel is updated ---------------------------------------------------------------------

  lemma ParcelUpdateLogged(db: Db, actor: Actor, before: Parcel, after: Parcel, version: nat)
    requires ReplaceParcel(db, actor, before, after, version).Some?
    ensures after.id in db.parcels && db.parcels[after.id].version == version && actor.requestID != ""
    ensures var row := db.parcels[after.id];
      ReplaceParcel(db, actor, before, after, version) ==
        Some(db.(parcels := db.parcels[after.id := after.(id := row.id, code := row.code, version := version + 1)],
                 audits := db.audits + [EntryOf(actor, ParcelUpdated, before.id, Some(before.id), OfParcel(before), OfParcel(after))]))
  {
  }

  lemma UpdateShape(lib: Library, db: Db, actor: Actor, before: Parcel, after: Parcel, version: nat)
    requires LegalLog(db.audits) && Mirrors(Replay(db.audits), db) && ParcelsSound(lib, Replay(db.audits))
    requires SeenParcel(db, before) && after.id == before.id && after.code == before.code
    requires ReplaceParcel(db, actor, before, after, version).Some?
    ensures var d, l := ReplaceParcel(db, actor, before, after, version).value, Replay(db.audits);
      && after.id in db.parcels && after.id in l.parcels && |l.parcels[after.id]| > 0 && after.code == l.parcels[after.id][0].code
      && d == db.(parcels := db.parcels[after.id := after.(version := version + 1)], audits := d.audits)
      && version == |l.parcels[after.id]|
      && Replay(d.audits) == l.(parcels := l.parcels[after.id := l.parcels[after.id] + [after]])
      && Logged(db, d)
  {
    hide ReplaceParcel, BoundarySound, Replay, LegalLog;
    var l, row := Replay(db.audits), db.parcels[after.id];
    ParcelUpdateLogged(db, actor, before, after, version);
    Append(db.audits, EntryOf(actor, ParcelUpdated, before.id, Some(before.id), OfParcel(before), OfParcel(after)));
    assert ParcelAgrees(row, l.parcels[after.id]);
    assert row.code == l.parcels[after.id][0].code && row.id == after.id;
  }

  lemma MirrorsUpdate(l: Ledger, db: Db, id: nat, after: Parcel, m: Ledger, d: Db)
    requires Mirrors(l, db) && id in l.parcels
    requires m == l.(parcels := l.parcels[id := l.parcels[id] + [after]])
    requires d == db.(parcels := db.parcels[id := after.(version := |l.parcels[id]| + 1)], audits := d.audits)
    ensures Mirrors(m, d)
  {
    hide SameDraft;
  }

  lemma KeysUpdate(db: Db, id: nat, row: Parcel, d: Db)
    requires KeysSound(db) && id in db.parcels && row.id == id
    requires d == db.(parcels := db.parcels[id := row], audits := d.audits)
    ensures KeysSound(d)
  {
  }

  lemma HistoryExtendedSoundly(lib: Library, l: Ledger, m: Ledger, after: Parcel)
    requires ParcelsSound(lib, l) && BoundarySound(lib, after)
    requires after.id in l.parcels && |l.parcels[after.id]| > 0 && after.code == l.parcels[after.id][0].code
    requires m == l.(parcels := l.parcels[after.id := l.parcels[after.id] + [after]])
    ensures ParcelsSound(lib, m)
  {
    hide BoundarySound;
  }

  lemma KeepsParcelUpdate(lib: Library, db: Db, actor: Actor, before: Parcel, after: Parcel, version: nat, open: set<nat>)
    requires Core(lib, db, open) && BoundarySound(lib, after)
    requires SeenParcel(db, before) && after.id == before.id && after.code == before.code
    requires ReplaceParcel(db, actor, before, after, version).Some?
    ensures Core(lib, ReplaceParcel(db, actor, before, after, version).value, open)
    ensures Follows(db, ReplaceParcel(db, actor, before, after, version).value)
  {
    hide ReplaceParcel, Replay, LegalLog, KeysSound, Mirrors, ParcelsSound, ProposalsSound, ObservationsSound, ConflictsSound,
      AppliedSound, BoundarySound, SeenParcel;
    var d := ReplaceParcel(db, actor, before, after, version).value;
    var l, m := Replay(db.audits), Replay(d.audits);
    UpdateShape(lib, db, actor, before, after, version);
    KeysUpdate(db, after.id, after.(version := version + 1), d);
    MirrorsUpdate(l, db, after.id, after, m, d);
    HistoryExtendedSoundly(lib, l, m, after);
    ProposalsStaySound(lib, db, l, d, m);
    ObservationsStaySound(db, d);
    ConflictsStaySound(lib, db, l, d, m);
    AppliedStaysSound(db, l, d, m, open);
    RowsStay(db, d);
  }

  // --- An observation is imported ----------------------------------------------------------------

  lemma ObservationLogged(db: Db, actor: Actor, item: Observation)
    requires AddObservation(db, actor, item).Some?
    ensures var n := db.next.observation;
      AddObservation(db, actor, item) ==
        Some(db.(observations := db.observations[n := item.(id := n)], next := db.next.(observation := n + 1),
                 audits := db.audits + [EntryOf(actor, ObservationImported, n, Some(item.parcelID), Nothing, OfObservation(item.(id := n)))]))
    ensures actor.requestID != ""
  {
  }

  lemma ObservationShape(db: Db, actor: Actor, item: Observation)
    requires KeysSound(db) && LegalLog(db.audits) && Mirrors(Replay(db.audits), db)
    requires AddObservation(db, actor, item).Some?
    ensures var d, l, n := AddObservation(db, actor, item).value, Replay(db.audits), db.next.observation;
      && d == db.(observations := db.observations[n := item.(id := n)], next := db.next.(observation := n + 1), audits := d.audits)
      && Replay(d.audits) == l.(observations := l.observations[n := ObservationLife(item.state, item.version, item.replacedBy)])
      && n !in db.observations && Logged(db, d)
  {
    hide AddObservation, Replay, LegalLog;
    var n := db.next.observation;
    ObservationLogged(db, actor, item);
    Append(db.audits, EntryOf(actor, ObservationImported, n, Some(item.parcelID), Nothing, OfObservation(item.(id := n))));
    assert n !in db.observations;
  }

  /** One observation row written, with its life in the ledger. */
  lemma ObservationWritten(l: Ledger, db: Db, n: nat, row: Observation, m: Ledger, d: Db)
    requires Mirrors(l, db) && KeysSound(db) && row.id == n && n < d.next.observation
    requires m == l.(observations := l.observations[n := ObservationLife(row.state, row.version, row.replacedBy)])
    requires d.next == db.next || d.next == db.next.(observation := db.next.observation + 1)
    requires d == db.(observations := db.observations[n := row], next := d.next, audits := d.audits)
    ensures Mirrors(m, d) && KeysSound(d)
  {
    hide SameDraft;
  }

  lemma ObservationsWrittenSoundly(db: Db, d: Db, n: nat, row: Observation)
    requires ObservationsSound(db) && ObservationSound(d, row)
    requires d == db.(observations := db.observations[n := row], next := d.next, audits := d.audits)
    requires n in db.observations ==> db.observations[n].parcelID == row.parcelID
    ensures ObservationsSound(d)
  {
  }

  lemma ObservationRowsEvolve(db: Db, d: Db, n: nat, row: Observation)
    requires d.observations == db.observations[n := row]
    requires n in db.observations ==> ObservationEvolves(db.observations[n], row)
    ensures forall id | id in db.observations :: id in d.observations && ObservationEvolves(db.observations[id], d.observations[id])
  {
  }

  lemma KeepsObservation(lib: Library, db: Db, actor: Actor, item: Observation, open: set<nat>)
    requires Core(lib, db, open) && item.parcelID in db.parcels && item.version == 1 && item.replacedBy.None?
    requires AddObservation(db, actor, item).Some?
    ensures Core(lib, AddObservation(db, actor, item).value, open) && Follows(db, AddObservation(db, actor, item).value)
  {
    hide AddObservation, Replay, LegalLog, KeysSound, Mirrors, ParcelsSound, ProposalsSound, ObservationsSound, ConflictsSound,
      AppliedSound;
    var d, n := AddObservation(db, actor, item).value, db.next.observation;
    var l, m := Replay(db.audits), Replay(d.audits);
    ObservationShape(db, actor, item);
    ObservationWritten(l, db, n, item.(id := n), m, d);
    ObservationsWrittenSoundly(db, d, n, item.(id := n));
    ObservationRowsEvolve(db, d, n, item.(id := n));
    ParcelsUntouched(lib, l, m);
    ProposalsStaySound(lib, db, l, d, m);
    ConflictsStaySound(lib, db, l, d, m);
    AppliedStaysSound(db, l, d, m, open);
    RowsStay(db, d);
  }

  // --- An observation is transitioned --------------------------------------------------------------

  function ReplacedRow(before: Observation, to: ObservationState, replacement: Option<nat>, note: string): Observation {
    before.(state := to, version := before.version + 1, replacedBy := replacement, note := if note != "" then note else before.note)
  }

  function ObservationEntry(actor: Actor, before: Observation, to: ObservationState, replacement: Option<nat>, note: string): Entry {
    EntryOf(actor, ObservationStateChanged, before.id, Some(before.parcelID), OfObservation(before),
            ObservationMove(to, before.version + 1, replacement, note))
  }

  /** The row a successful transition leaves behind; the snapshot it was decided on is still the row. */
  lemma ObservationRowMoved(db: Db, actor: Actor, before: Observation, to: ObservationState, replacement: Option<nat>, note: string)
    requires ObservationsSound(db) && SeenObservation(db, before) && before.state != Superseded
    requires ChangeObservation(db, actor, before, to, replacement, note).Some?
    ensures db.observations[before.id] == before && before.replacedBy.None? && actor.requestID != ""
    ensures ChangeObservation(db, actor, before, to, replacement, note).value
         == db.(observations := db.observations[before.id := ReplacedRow(before, to, replacement, note)],
                audits := db.audits + [ObservationEntry(actor, before, to, replacement, note)])
  {
    assert before == db.observations[before.id];
    assert ObservationSound(db, before);
    hide ObservationsSound, ObservationEvolves;
  }

  lemma ObservationMoveRecorded(l: Ledger, actor: Actor, before: Observation, to: ObservationState, replacement: Option<nat>, note: string)
    requires before.id in l.observations && l.observations[before.id] == ObservationLife(before.state, before.version, before.replacedBy)
    requires CanTransitionObservation(before.state, to)
    ensures var e := ObservationEntry(actor, before, to, replacement, note);
      Legal(l, e)
      && Recorded(l, e) == l.(observations := l.observations[before.id := ObservationLife(to, before.version + 1, replacement)])
  {
    hide CanTransitionObservation;
  }

  lemma ObservationLifeBefore(l: Ledger, db: Db, before: Observation)
    requires Mirrors(l, db) && before.id in db.observations && db.observations[before.id] == before
    ensures before.id in l.observations && l.observations[before.id] == ObservationLife(before.state, before.version, before.replacedBy)
  {
    hide SameDraft;
  }

  lemma ObservationChangeShape(db: Db, actor: Actor, before: Observation, to: ObservationState, replacement: Option<nat>, note: string)
    requires LegalLog(db.audits) && Mirrors(Replay(db.audits), db) && ObservationsSound(db)
    requires SeenObservation(db, before) && CanTransitionObservation(before.state, to)
    requires ChangeObservation(db, actor, before, to, replacement, note).Some?
    ensures before.id in db.observations && db.observations[before.id] == before
    ensures before.state != Superseded && before.replacedBy.None?
    ensures var d, l := ChangeObservation(db, actor, before, to, replacement, note).value, Replay(db.audits);
      && d == db.(observations := db.observations[before.id := ReplacedRow(before, to, replacement, note)], audits := d.audits)
      && Replay(d.audits) == l.(observations := l.observations[before.id := ObservationLife(to, before.version + 1, replacement)])
      && Logged(db, d)
  {
    assert before.state != Superseded;
    hide ChangeObservation, Replay, LegalLog, Mirrors, ObservationsSound, CanTransitionObservation, ObservationEvolves, Recorded, Legal,
      ReplacedRow;
    ObservationRowMoved(db, actor, before, to, replacement, note);
    ObservationLifeBefore(Replay(db.audits), db, before);
    ObservationMoveRecorded(Replay(db.audits), actor, before, to, replacement, note);
    Append(db.audits, ObservationEntry(actor, before, to, replacement, note));
  }

  lemma KeepsObservationChange(lib: Library, db: Db, actor: Actor, before: Observation, to: ObservationState, replacement: Option<nat>, note: string, open: set<nat>)
    requires Core(lib, db, open) && SeenObservation(db, before) && CanTransitionObservation(before.state, to)
    requires if to == Superseded
             then replacement.Some? && replacement.value in db.observations && db.observations[replacement.value].parcelID == before.parcelID
             else replacement.None?
    requires ChangeObservation(db, actor, before, to, replacement, note).Some?
    ensures Core(lib, ChangeObservation(db, actor, before, to, replacement, note).value, open)
    ensures Follows(db, ChangeObservation(db, actor, before, to, replacement, note).value)
  {
    hide ChangeObservation, Replay, LegalLog, KeysSound, Mirrors, ParcelsSound, ProposalsSound, ConflictsSound, AppliedSound,
      CanTransitionObservation;
    var d := ChangeObservation(db, actor, before, to, replacement, note).value;
    var l, m := Replay(db.audits), Replay(d.audits);
    ObservationChangeShape(db, actor, before, to, replacement, note);
    var row := ReplacedRow(before, to, replacement, note);
    ExistingObservation(db, before.id);
    ObservationWritten(l, db, before.id, row, m, d);
    assert ObservationSound(db, before);
    ObservationsWrittenSoundly(db, d, before.id, row);
    ObservationRowsEvolve(db, d, before.id, row);
    ParcelsUntouched(lib, l, m);
    ProposalsStaySound(lib, db, l, d, m);
    ConflictsStaySound(lib, db, l, d, m);
    AppliedStaysSound(db, l, d, m, open);
    RowsStay(db, d);
  }

  lemma ExistingObservation(db: Db, id: nat)
    requires KeysSound(db) && id in db.observations
    ensures db.observations[id].id == id && id < db.next.observation
  {
  }

  // --- A proposal is drafted -------------------------------------------------------------------------

  lemma ProposalLogged(db: Db, actor: Actor, item: Proposal, action: Action)
    requires AddProposal(db, actor, item, action).Some?
    ensures var n := db.next.proposal;
      AddProposal(db, actor, item, action) ==
        Some(db.(proposals := db.proposals[n := item.(id := n)], next := db.next.(proposal := n + 1),
                 audits := db.audits + [EntryOf(actor, action, n, Some(item.parcelID), Nothing, OfProposal(item.(id := n)))]))
    ensures actor.requestID != ""
  {
  }

  lemma ProposalShape(db: Db, actor: Actor, item: Proposal, action: Action)
    requires KeysSound(db) && LegalLog(db.audits) && Mirrors(Replay(db.audits), db)
    requires action == ProposalCreated || action == ProposalCreatedFromConflict
    requires AddProposal(db, actor, item, action).Some?
    ensures var d, l, n := AddProposal(db, actor, item, action).value, Replay(db.audits), db.next.proposal;
      var row := item.(id := n);
      && d == db.(proposals := db.proposals[n := row], next := db.next.(proposal := n + 1), audits := d.audits)
      && Replay(d.audits) == l.(proposals := l.proposals[n := ProposalLife(row, row.state, row.version, row.reviewedBy)],
                                derived := if action == ProposalCreatedFromConflict then l.derived + {n} else l.derived)
      && n !in db.proposals && Logged(db, d)
  {
    hide AddProposal, Replay, LegalLog;
    var n := db.next.proposal;
    ProposalLogged(db, actor, item, action);
    Append(db.audits, EntryOf(actor, action, n, Some(item.parcelID), Nothing, OfProposal(item.(id := n))));
    assert n !in db.proposals;
  }

  /** One proposal row written, with its life in the ledger. */
  lemma ProposalWritten(l: Ledger, db: Db, n: nat, row: Proposal, born: Proposal, m: Ledger, d: Db)
    requires Mirrors(l, db) && KeysSound(db) && row.id == n && n < d.next.proposal && SameDraft(born, row)
    requires m == l.(proposals := l.proposals[n := ProposalLife(born, row.state, row.version, row.reviewedBy)], derived := m.derived)
    requires d.next == db.next || d.next == db.next.(proposal := db.next.proposal + 1)
    requires d == db.(proposals := db.proposals[n := row], next := d.next, audits := d.audits)
    ensures Mirrors(m, d) && KeysSound(d)
  {
    hide SameDraft;
  }

  lemma ProposalsWrittenSoundly(lib: Library, db: Db, l: Ledger, d: Db, m: Ledger, n: nat, row: Proposal, born: Proposal)
    requires ProposalsSound(lib, db, l) && m.parcels == l.parcels
    requires DraftSound(lib, l, row) && ReviewSound(row, born)
    requires d.proposals == db.proposals[n := row]
    requires n !in m.proposals || m.proposals[n].born == born
    requires m.proposals.Keys == l.proposals.Keys + {n} && forall id | id in l.proposals && id != n :: m.proposals[id] == l.proposals[id]
    ensures ProposalsSound(lib, d, m)
  {
    hide ReviewSound;
    assert forall p | DraftSound(lib, l, p) :: DraftSound(lib, m, p);
    hide DraftSound;
  }

  lemma ProposalRowsEvolve(db: Db, d: Db, n: nat, row: Proposal)
    requires d.proposals == db.proposals[n := row]
    requires n in db.proposals ==> ProposalEvolves(db.proposals[n], row)
    ensures forall id | id in db.proposals :: id in d.proposals && ProposalEvolves(db.proposals[id], d.proposals[id])
  {
  }

  lemma DerivedStaysSound(db: Db, l: Ledger, d: Db, m: Ledger, open: set<nat>, n: nat)
    requires AppliedSound(db, l, open) && m.applied == l.applied && m.derived == l.derived + {n} && n !in db.proposals
    requires d.proposals.Keys == db.proposals.Keys + {n} && d.conflicts == db.conflicts
    ensures AppliedSound(d, m, open + {n})
  {
    assert n !in l.derived;
  }

  lemma KeepsProposal(lib: Library, db: Db, actor: Actor, item: Proposal, action: Action, open: set<nat>)
    requires Core(lib, db, open) && DraftSound(lib, Replay(db.audits), item)
    requires item.state == Draft && item.reviewedBy.None?
    requires action == ProposalCreated || action == ProposalCreatedFromConflict
    requires AddProposal(db, actor, item, action).Some?
    ensures Core(lib, AddProposal(db, actor, item, action).value,
                 if action == ProposalCreatedFromConflict then open + {db.next.proposal} else open)
    ensures Follows(db, AddProposal(db, actor, item, action).value)
  {
    hide AddProposal, Replay, LegalLog, KeysSound, Mirrors, ParcelsSound, ProposalsSound, ObservationsSound, ConflictsSound,
      AppliedSound, Parsed, AreaOf;
    var d, n := AddProposal(db, actor, item, action).value, db.next.proposal;
    var l, m, row := Replay(db.audits), Replay(d.audits), item.(id := n);
    ProposalShape(db, actor, item, action);
    ProposalWritten(l, db, n, row, row, m, d);
    ProposalsWrittenSoundly(lib, db, l, d, m, n, row, row);
    ProposalRowsEvolve(db, d, n, row);
    ObservationsStaySound(db, d);
    ConflictsStaySound(lib, db, l, d, m);
    if action == ProposalCreatedFromConflict {
      DerivedStaysSound(db, l, d, m, open, n);
    } else {
      AppliedStaysSound(db, l, d, m, open);
    }
    ParcelsUntouched(lib, l, m);
    RowsStay(db, d);
  }

  // --- A proposal is transitioned ----------------------------------------------------------------------

  /** An equal version means the row never moved in between. */
  lemma SameVersionSameProposal(db: Db, before: Proposal)
    requires SeenProposal(db, before) && db.proposals[before.id].version == before.version
    ensures db.proposals[before.id] == before
  {
  }

  function ProposalEntry(actor: Actor, before: Proposal, to: ProposalState): Entry {
    EntryOf(actor, ProposalStateChanged, before.id, Some(before.parcelID), OfProposal(before), ProposalMove(to, before.version + 1))
  }

  lemma ProposalRowMoved(db: Db, actor: Actor, before: Proposal, to: ProposalState, rationale: string)
    requires SeenProposal(db, before) && ChangeProposal(db, actor, before, to, rationale).Some?
    ensures db.proposals[before.id] == before && actor.requestID != ""
    ensures ChangeProposal(db, actor, before, to, rationale).value
         == db.(proposals := db.proposals[before.id := Moved(before, actor, to, rationale)], audits := db.audits + [ProposalEntry(actor, before, to)])
  {
    hide ProposalEvolves;
    SameVersionSameProposal(db, before);
  }

  lemma ProposalMoveRecorded(l: Ledger, actor: Actor, before: Proposal, to: ProposalState, rationale: string)
    requires before.id in l.proposals && ProposalAgrees(before, l.proposals[before.id]) && CanProposalTransition(before.state, to)
    ensures Legal(l, ProposalEntry(actor, before, to))
    ensures var row := Moved(before, actor, to, rationale);
      Recorded(l, ProposalEntry(actor, before, to))
        == l.(proposals := l.proposals[before.id := ProposalLife(l.proposals[before.id].born, row.state, row.version, row.reviewedBy)])
  {
    hide SameDraft, CanProposalTransition;
  }

  lemma ProposalChangeShape(db: Db, actor: Actor, before: Proposal, to: ProposalState, rationale: string)
    requires LegalLog(db.audits) && Mirrors(Replay(db.audits), db)
    requires SeenProposal(db, before) && CanProposalTransition(before.state, to)
    requires ChangeProposal(db, actor, before, to, rationale).Some?
    ensures before.id in db.proposals && db.proposals[before.id] == before && before.id in Replay(db.audits).proposals
    ensures var d, l := ChangeProposal(db, actor, before, to, rationale).value, Replay(db.audits);
      var row := Moved(before, actor, to, rationale);
      && d == db.(proposals := db.proposals[before.id := row], audits := d.audits)
      && Replay(d.audits) == l.(proposals := l.proposals[before.id :=
           ProposalLife(l.proposals[before.id].born, row.state, row.version, row.reviewedBy)])
      && Logged(db, d)
  {
    hide ChangeProposal, Replay, LegalLog, Mirrors, SameDraft, CanProposalTransition, ProposalEvolves, ProposalAgrees, Moved,
      Recorded, Legal;
    ProposalRowMoved(db, actor, before, to, rationale);
    ProposalLifeBefore(Replay(db.audits), db, before);
    ProposalMoveRecorded(Replay(db.audits), actor, before, to, rationale);
    Append(db.audits, ProposalEntry(actor, before, to));
  }

  lemma ProposalLifeBefore(l: Ledger, db: Db, before: Proposal)
    requires Mirrors(l, db) && before.id in db.proposals && db.proposals[before.id] == before
    ensures before.id in l.proposals && ProposalAgrees(before, l.proposals[before.id])
  {
  }

  /** The row after a proposal transition. */
  function Moved(before: Proposal, actor: Actor, to: ProposalState, rationale: string): Proposal {
    before.(state := to, version := before.version + 1,
            rationale := if rationale != "" then rationale else before.rationale,
            reviewedBy := if IsProposalReviewTransition(to) then Some(actor.id) else before.reviewedBy)
  }

  lemma ReviewStaysSound(before: Proposal, born: Proposal, actor: Actor, to: ProposalState, rationale: string)
    requires ReviewSound(before, born)
    requires CanProposalTransition(before.state, to) && MayMoveProposal(before.createdBy, to, actor.id, actor.role)
    ensures ReviewSound(Moved(before, actor, to, rationale), born)
  {
    TransitionAdvancesPhase(before.state, to);
    assert (before.version + 1 - born.version) % 5 == ((before.version - born.version) % 5 + 1) % 5;
  }

  lemma KeepsProposalRows(lib: Library, db: Db, actor: Actor, before: Proposal, to: ProposalState, rationale: string)
    requires KeysSound(db) && LegalLog(db.audits) && Mirrors(Replay(db.audits), db) && ProposalsSound(lib, db, Replay(db.audits))
    requires SeenProposal(db, before)
    requires CanProposalTransition(before.state, to) && MayMoveProposal(before.createdBy, to, actor.id, actor.role)
    requires ChangeProposal(db, actor, before, to, rationale).Some?
    ensures var d := ChangeProposal(db, actor, before, to, rationale).value;
      && KeysSound(d) && Mirrors(Replay(d.audits), d) && ProposalsSound(lib, d, Replay(d.audits))
      && forall id | id in db.proposals :: id in d.proposals && ProposalEvolves(db.proposals[id], d.proposals[id])
  {
    hide ChangeProposal, Replay, LegalLog, KeysSound, Mirrors, Parsed, AreaOf, ReviewSound, CanProposalTransition, MayMoveProposal;
    var d := ChangeProposal(db, actor, before, to, rationale).value;
    var l, m, row := Replay(db.audits), Replay(d.audits), Moved(before, actor, to, rationale);
    ProposalChangeShape(db, actor, before, to, rationale);
    var born := l.proposals[before.id].born;
    ExistingProposal(l, db, before.id);
    ReviewStaysSound(before, born, actor, to, rationale);
    ProposalWritten(l, db, before.id, row, born, m, d);
    ProposalsWrittenSoundly(lib, db, l, d, m, before.id, row, born);
    ProposalRowsEvolve(db, d, before.id, row);
  }

  lemma KeepsProposalChange(lib: Library, db: Db, actor: Actor, before: Proposal, to: ProposalState, rationale: string, open: set<nat>)
    requires Core(lib, db, open) && SeenProposal(db, before)
    requires CanProposalTransition(before.state, to) && MayMoveProposal(before.createdBy, to, actor.id, actor.role)
    requires ChangeProposal(db, actor, before, to, rationale).Some?
    ensures Core(lib, ChangeProposal(db, actor, before, to, rationale).value, open)
    ensures Follows(db, ChangeProposal(db, actor, before, to, rationale).value)
  {
    hide ChangeProposal, Replay, LegalLog, KeysSound, Mirrors, ParcelsSound, ProposalsSound, ObservationsSound, ConflictsSound, AppliedSound,
      ReviewSound, DraftSound, SameDraft, ProposalEvolves, CanProposalTransition, MayMoveProposal;
    var d := ChangeProposal(db, actor, before, to, rationale).value;
    var l, m := Replay(db.audits), Replay(d.audits);
    KeepsProposalRows(lib, db, actor, before, to, rationale);
    ProposalChangeShape(db, actor, before, to, rationale);
    ObservationsStaySound(db, d);
    ConflictsStaySound(lib, db, l, d, m);
    AppliedStaysSound(db, l, d, m, open);
    ParcelsUntouched(lib, l, m);
    RowsStay(db, d);
  }

  lemma ExistingProposal(l: Ledger, db: Db, id: nat)
    requires KeysSound(db) && Mirrors(l, db) && id in db.proposals
    ensures db.proposals[id].id == id && id < db.next.proposal && SameDraft(l.proposals[id].born, db.proposals[id])
  {
    hide SameDraft;
  }

  // --- A conflict is transitioned, with or without applying its suggestion -----------------------------

  /** The row after a conflict transition. */
  function MovedRow(before: Conflict, actor: Actor, to: ConflictState): Conflict {
    before.(state := to, resolvedBy := if Settled(to) then Some(actor.id) else before.resolvedBy)
  }

  lemma ConflictLifeBefore(l: Ledger, db: Db, before: Conflict)
    requires Mirrors(l, db) && before.id in db.conflicts && db.conflicts[before.id] == before
    ensures before.id in l.conflicts && ConflictAgrees(before, l.conflicts[before.id])
  {
    hide SameDraft;
  }

  /** Comparing the state alone is enough: an equal state means the row never moved in between. */
  lemma SameStateSameRow(db: Db, before: Conflict)
    requires SeenConflict(db, before) && db.conflicts[before.id].state == before.state
    ensures db.conflicts[before.id] == before
  {
  }

  lemma ConflictChangeLogged(db: Db, actor: Actor, before: Conflict, to: ConflictState)
    requires ChangeConflict(db, actor, before, to).Some?
    ensures before.id in db.conflicts && db.conflicts[before.id].state == before.state && actor.requestID != ""
    ensures db.conflicts[before.id] == before ==>
      ChangeConflict(db, actor, before, to) ==
        Some(db.(conflicts := db.conflicts[before.id := MovedRow(before, actor, to)],
                 audits := db.audits + [EntryOf(actor, ConflictStateChanged, before.id, None, OfConflict(before), ConflictMove(to))]))
  {
  }

  lemma ConflictChangeShape(db: Db, actor: Actor, before: Conflict, to: ConflictState)
    requires LegalLog(db.audits) && Mirrors(Replay(db.audits), db)
    requires SeenConflict(db, before) && CanConflictTransition(before.state, to)
    requires ChangeConflict(db, actor, before, to).Some?
    ensures before.id in db.conflicts && db.conflicts[before.id] == before && before.id in Replay(db.audits).conflicts
    ensures var d, l := ChangeConflict(db, actor, before, to).value, Replay(db.audits);
      && d == db.(conflicts := db.conflicts[before.id := MovedRow(before, actor, to)], audits := d.audits)
      && Replay(d.audits) == l.(conflicts := l.conflicts[before.id := MovedConflict(l.conflicts[before.id], to, actor.id)])
      && Logged(db, d)
  {
    hide ChangeConflict, Replay, LegalLog, Mirrors, CanConflictTransition;
    ConflictChangeLogged(db, actor, before, to);
    SameStateSameRow(db, before);
    Append(db.audits, EntryOf(actor, ConflictStateChanged, before.id, None, OfConflict(before), ConflictMove(to)));
    ConflictLifeBefore(Replay(db.audits), db, before);
  }

  lemma SettlementLogged(db: Db, actor: Actor, before: Conflict, derivedID: nat)
    requires SettleConflict(db, actor, before, derivedID).Some?
    ensures before.id in db.conflicts && db.conflicts[before.id].state == before.state && actor.requestID != ""
    ensures db.conflicts[before.id] == before && before.state == ResolutionProposed ==>
      SettleConflict(db, actor, before, derivedID) ==
        Some(db.(conflicts := db.conflicts[before.id := MovedRow(before, actor, Resolved)],
                 audits := db.audits + [EntryOf(actor, ConflictSuggestionApplied, before.id, Some(derivedID), OfConflict(before),
                                                SuggestionMove(Resolved, derivedID))]))
  {
  }

  lemma SettlementShape(db: Db, actor: Actor, before: Conflict, derivedID: nat)
    requires LegalLog(db.audits) && Mirrors(Replay(db.audits), db) && AppliedSound(db, Replay(db.audits), {derivedID})
    requires SeenConflict(db, before) && before.state == ResolutionProposed
    requires SettleConflict(db, actor, before, derivedID).Some?
    ensures before.id in db.conflicts && db.conflicts[before.id] == before && before.id in Replay(db.audits).conflicts
    ensures var d, l := SettleConflict(db, actor, before, derivedID).value, Replay(db.audits);
      && before.id !in l.applied
      && d == db.(conflicts := db.conflicts[before.id := MovedRow(before, actor, Resolved)], audits := d.audits)
      && Replay(d.audits) == l.(conflicts := l.conflicts[before.id := MovedConflict(l.conflicts[before.id], Resolved, actor.id)],
                                applied := l.applied[before.id := derivedID])
      && Logged(db, d)
  {
    hide SettleConflict, Replay, LegalLog, Mirrors;
    var e := EntryOf(actor, ConflictSuggestionApplied, before.id, Some(derivedID), OfConflict(before), SuggestionMove(Resolved, derivedID));
    SettlementLogged(db, actor, before, derivedID);
    SameStateSameRow(db, before);
    Append(db.audits, e);
    ConflictLifeBefore(Replay(db.audits), db, before);
    assert before.id !in Replay(db.audits).applied;
  }

  /** One conflict row written, with its life in the ledger. */
  lemma ConflictWritten(l: Ledger, db: Db, n: nat, row: Conflict, life: ConflictLife, m: Ledger, d: Db)
    requires Mirrors(l, db) && KeysSound(db) && row.id == n && n < d.next.conflict && ConflictAgrees(row, life)
    requires m == l.(conflicts := l.conflicts[n := life], applied := m.applied)
    requires d.next == db.next || d.next == db.next.(conflict := db.next.conflict + 1)
    requires d == db.(conflicts := db.conflicts[n := row], next := d.next, audits := d.audits)
    ensures Mirrors(m, d) && KeysSound(d)
  {
    hide SameDraft;
  }

  lemma ConflictsWrittenSoundly(lib: Library, db: Db, l: Ledger, d: Db, m: Ledger, n: nat, row: Conflict, life: ConflictLife)
    requires ConflictsSound(lib, db, l) && ConflictSound(lib, db, row, life)
    requires d.proposals == db.proposals && d.conflicts == db.conflicts[n := row] && m.conflicts == l.conflicts[n := life]
    ensures ConflictsSound(lib, d, m)
  {
    hide PathSound, Parsed;
  }

  lemma MovedConflictSound(lib: Library, db: Db, before: Conflict, life: ConflictLife, actor: Actor, to: ConflictState)
    requires ConflictSound(lib, db, before, life) && ConflictAgrees(before, life) && CanConflictTransition(before.state, to)
    ensures ConflictSound(lib, db, MovedRow(before, actor, to), MovedConflict(life, to, actor.id))
    ensures ConflictAgrees(MovedRow(before, actor, to), MovedConflict(life, to, actor.id))
    ensures ConflictEvolves(before, MovedRow(before, actor, to))
    ensures Settled(before.state) ==> Settled(to)
  {
    hide Parsed;
    TransitionLowersRank(before.state, to);
    var path := life.path + [to];
    assert forall i | 0 <= i < |life.path| :: Rank(life.path[i]) >= Rank(life.state);
  }

  lemma ConflictRowsEvolve(db: Db, d: Db, n: nat, row: Conflict)
    requires d.conflicts == db.conflicts[n := row]
    requires n in db.conflicts ==> ConflictEvolves(db.conflicts[n], row)
    ensures forall id | id in db.conflicts :: id in d.conflicts && ConflictEvolves(db.conflicts[id], d.conflicts[id])
  {
  }

  lemma ExistingConflict(db: Db, id: nat)
    requires KeysSound(db) && id in db.conflicts
    ensures db.conflicts[id].id == id && id < db.next.conflict
  {
  }

  lemma KeepsConflictChange(lib: Library, db: Db, actor: Actor, before: Conflict, to: ConflictState, open: set<nat>)
    requires Core(lib, db, open) && SeenConflict(db, before) && CanConflictTransition(before.state, to)
    requires ChangeConflict(db, actor, before, to).Some?
    ensures Core(lib, ChangeConflict(db, actor, before, to).value, open)
    ensures Follows(db, ChangeConflict(db, actor, before, to).value)
  {
    hide ChangeConflict, Replay, LegalLog, KeysSound, Mirrors, ParcelsSound, ProposalsSound, ObservationsSound, AppliedSound,
      ConflictSound, CanConflictTransition;
    var d := ChangeConflict(db, actor, before, to).value;
    var l, m := Replay(db.audits), Replay(d.audits);
    ConflictChangeShape(db, actor, before, to);
    var row, life := MovedRow(before, actor, to), MovedConflict(l.conflicts[before.id], to, actor.id);
    ConflictLifeBefore(l, db, before);
    ExistingConflict(db, before.id);
    MovedConflictSound(lib, db, before, l.conflicts[before.id], actor, to);
    ConflictWritten(l, db, before.id, row, life, m, d);
    ConflictsWrittenSoundly(lib, db, l, d, m, before.id, row, life);
    ConflictRowsEvolve(db, d, before.id, row);
    ParcelsUntouched(lib, l, m);
    ProposalsStaySound(lib, db, l, d, m);
    ObservationsStaySound(db, d);
    AppliedStaysSound(db, l, d, m, open);
    RowsStay(db, d);
  }

  lemma AppliedSettles(db: Db, l: Ledger, d: Db, m: Ledger, c: nat, derivedID: nat)
    requires AppliedSound(db, l, {derivedID}) && c !in l.applied
    requires m.derived == l.derived && m.applied == l.applied[c := derivedID]
    requires c in d.conflicts && Settled(d.conflicts[c].state) && d.proposals == db.proposals
    requires forall k | k in db.conflicts && k != c :: k in d.conflicts && d.conflicts[k] == db.conflicts[k]
    ensures AppliedSound(d, m, {})
  {
    assert derivedID !in l.applied.Values;
    assert m.applied.Values == l.applied.Values + {derivedID} by {
      forall v ensures v in m.applied.Values <==> v in l.applied.Values + {derivedID} {
        if v in l.applied.Values {
          var k :| k in l.applied && l.applied[k] == v;
          assert m.applied[k] == v;
        }
        assert m.applied[c] == derivedID;
      }
    }
  }

  lemma KeepsSettlement(lib: Library, db: Db, actor: Actor, before: Conflict, derivedID: nat)
    requires Core(lib, db, {derivedID}) && SeenConflict(db, before) && before.state == ResolutionProposed
    requires SettleConflict(db, actor, before, derivedID).Some?
    ensures Core(lib, SettleConflict(db, actor, before, derivedID).value, {})
    ensures Follows(db, SettleConflict(db, actor, before, derivedID).value)
  {
    hide SettleConflict, Replay, LegalLog, KeysSound, Mirrors, ParcelsSound, ProposalsSound, ObservationsSound, AppliedSound,
      ConflictSound;
    var d := SettleConflict(db, actor, before, derivedID).value;
    var l, m := Replay(db.audits), Replay(d.audits);
    SettlementShape(db, actor, before, derivedID);
    var row, life := MovedRow(before, actor, Resolved), MovedConflict(l.conflicts[before.id], Resolved, actor.id);
    ConflictLifeBefore(l, db, before);
    ExistingConflict(db, before.id);
    MovedConflictSound(lib, db, before, l.conflicts[before.id], actor, Resolved);
    ConflictWritten(l, db, before.id, row, life, m, d);
    ConflictsWrittenSoundly(lib, db, l, d, m, before.id, row, life);
    ConflictRowsEvolve(db, d, before.id, row);
    ParcelsUntouched(lib, l, m);
    ProposalsStaySound(lib, db, l, d, m);
    ObservationsStaySound(db, d);
    AppliedSettles(db, l, d, m, before.id, derivedID);
    RowsStay(db, d);
  }

  // --- Detection: conflicts, then the run that lists them --------------------------------------------------

  lemma ConflictLogged(db: Db, actor: Actor, parcelID: nat, detection: Detection)
    requires AddConflict(db, actor, parcelID, detection).Some?
    ensures var n := db.next.conflict;
      AddConflict(db, actor, parcelID, detection) ==
        Some(db.(conflicts := db.conflicts[n := Conflict(n, detection, Detected, None)], next := db.next.(conflict := n + 1),
                 audits := db.audits + [EntryOf(actor, ConflictDetected, n, Some(parcelID), Nothing, OfConflict(Conflict(n, detection, Detected, None)))]))
    ensures actor.requestID != ""
  {
  }

  lemma ConflictShape(db: Db, actor: Actor, parcelID: nat, detection: Detection)
    requires KeysSound(db) && LegalLog(db.audits) && Mirrors(Replay(db.audits), db)
    requires AddConflict(db, actor, parcelID, detection).Some?
    ensures var d, l, n := AddConflict(db, actor, parcelID, detection).value, Replay(db.audits), db.next.conflict;
      && d == db.(conflicts := db.conflicts[n := Conflict(n, detection, Detected, None)], next := db.next.(conflict := n + 1), audits := d.audits)
      && Replay(d.audits) == l.(conflicts := l.conflicts[n := ConflictLife(Detected, None, [Detected])])
      && n !in db.conflicts && Logged(db, d)
  {
    hide AddConflict, Replay, LegalLog;
    var n := db.next.conflict;
    ConflictLogged(db, actor, parcelID, detection);
    Append(db.audits, EntryOf(actor, ConflictDetected, n, Some(parcelID), Nothing, OfConflict(Conflict(n, detection, Detected, None))));
    assert n !in db.conflicts;
  }

  lemma KeepsConflict(lib: Library, db: Db, actor: Actor, parcelID: nat, detection: Detection)
    requires Core(lib, db, {}) && detection.proposalID in db.proposals
    requires detection.suggestion.tolerance > 0.0 ==> Parsed(lib, detection.suggestion.snapped).Some?
    requires AddConflict(db, actor, parcelID, detection).Some?
    ensures Core(lib, AddConflict(db, actor, parcelID, detection).value, {})
    ensures Follows(db, AddConflict(db, actor, parcelID, detection).value)
  {
    hide AddConflict, Replay, LegalLog, KeysSound, Mirrors, ParcelsSound, ProposalsSound, ObservationsSound, ConflictsSound,
      AppliedSound, Parsed;
    var d, n := AddConflict(db, actor, parcelID, detection).value, db.next.conflict;
    var l, m := Replay(db.audits), Replay(d.audits);
    ConflictShape(db, actor, parcelID, detection);
    var row, life := Conflict(n, detection, Detected, None), ConflictLife(Detected, None, [Detected]);
    ConflictWritten(l, db, n, row, life, m, d);
    ConflictsWrittenSoundly(lib, db, l, d, m, n, row, life);
    ConflictRowsEvolve(db, d, n, row);
    ParcelsUntouched(lib, l, m);
    ProposalsStaySound(lib, db, l, d, m);
    ObservationsStaySound(db, d);
    AppliedStaysSound(db, l, d, m, {});
    RowsStay(db, d);
  }

  lemma MirrorsSameRows(l: Ledger, db: Db, d: Db)
    requires Mirrors(l, db) && d == db.(runs := d.runs, audits := d.audits, next := d.next)
    ensures Mirrors(l, d)
  {
    hide SameDraft;
  }

  lemma RunLogged(db: Db, actor: Actor, item: DetectionRun)
    requires CompleteRun(db, actor, item).Some?
    ensures var n := db.next.run;
      CompleteRun(db, actor, item) ==
        Some(db.(runs := db.runs[n := item.(id := n)], next := db.next.(run := n + 1),
                 audits := db.audits + [EntryOf(actor, DetectionCompleted, n, Some(item.proposalID), Nothing, OfRun(item.(id := n)))]))
    ensures actor.requestID != ""
    ensures !db.RunKeyTaken(item.actorID, item.key)
  {
  }

  lemma RunShape(db: Db, actor: Actor, item: DetectionRun)
    requires KeysSound(db) && LegalLog(db.audits) && CompleteRun(db, actor, item).Some?
    ensures var d, n := CompleteRun(db, actor, item).value, db.next.run;
      && d == db.(runs := db.runs[n := item.(id := n)], next := db.next.(run := n + 1), audits := d.audits)
      && Replay(d.audits) == Replay(db.audits)
      && n !in db.runs && Logged(db, d) && KeysSound(d) && !db.RunKeyTaken(item.actorID, item.key)
  {
    hide CompleteRun, Replay, LegalLog, Db.RunKeyTaken;
    var n := db.next.run;
    RunLogged(db, actor, item);
    Append(db.audits, EntryOf(actor, DetectionCompleted, n, Some(item.proposalID), Nothing, OfRun(item.(id := n))));
    assert n !in db.runs;
  }

  lemma KeepsRun(lib: Library, db: Db, actor: Actor, item: DetectionRun)
    requires Core(lib, db, {}) && CompleteRun(db, actor, item).Some?
    ensures Core(lib, CompleteRun(db, actor, item).value, {})
    ensures Follows(db, CompleteRun(db, actor, item).value)
  {
    hide CompleteRun, Replay, LegalLog, KeysSound, Mirrors, ParcelsSound, ProposalsSound, ObservationsSound, ConflictsSound,
      AppliedSound;
    var d := CompleteRun(db, actor, item).value;
    var l, m := Replay(db.audits), Replay(d.audits);
    RunShape(db, actor, item);
    MirrorsSameRows(l, db, d);
    ParcelsUntouched(lib, l, m);
    ProposalsStaySound(lib, db, l, d, m);
    ObservationsStaySound(db, d);
    ConflictsStaySound(lib, db, l, d, m);
    AppliedStaysSound(db, l, d, m, {});
    RowsStay(db, d);
  }
}
