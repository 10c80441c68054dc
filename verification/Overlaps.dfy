/**
  What overlapping requests do to a parcel's updates and to proposals drawn on it: how far a base
  version can lag, and how an update is lost, from any state a run reaches.
 */
module Overlaps {
  import opened Options
  import opened Boundaries
  import opened Records
  import opened AuditTrail
  import opened Invariants
  import opened Requests
  import opened Calls
  import opened Interleaving
  import opened Histories
  import opened Scheduling
  import opened Outcomes

  // --- Versions and the log -----------------------------------------------------------------

  predicate VersionCounted(audits: seq<Entry>, id: nat) {
    var parcels := Replay(audits).parcels;
    Count(audits, ParcelUpdated, id) + 1 == if id in parcels then |parcels[id]| else 1
  }

  predicate ConcernsParcels(e: Entry) {
    e.action == ParcelCreated || e.action == ParcelUpdated
  }

  lemma OthersKeepParcels(l: Ledger, e: Entry)
    requires !ConcernsParcels(e)
    ensures Recorded(l, e).parcels == l.parcels
  {
    hide MovedProposal, MovedConflict;
  }

  lemma ParcelRecorded(l: Ledger, e: Entry)
    requires ConcernsParcels(e) && Legal(l, e)
    ensures var m, id := Recorded(l, e).parcels, e.resourceID;
      && id in m && m == l.parcels[id := m[id]] && (id in l.parcels <==> e.action == ParcelUpdated)
      && |m[id]| == if id in l.parcels then |l.parcels[id]| + 1 else 1
  {
  }

  lemma {:induction false} VersionsAreCounted(audits: seq<Entry>, id: nat)
    requires LegalLog(audits)
    ensures VersionCounted(audits, id)
  {
    if |audits| > 0 {
      hide Recorded, Legal;
      var earlier, last := audits[..|audits| - 1], audits[|audits| - 1];
      VersionsAreCounted(earlier, id);
      if ConcernsParcels(last) {
        ParcelRecorded(Replay(earlier), last);
      } else {
        OthersKeepParcels(Replay(earlier), last);
      }
    }
  }

  /** After any run, a parcel's version is one more than the updates logged for it. */
  lemma VersionsCountUpdates(lib: Library, moves: seq<Move>, id: nat)
    requires id in Run(lib, moves).db.parcels
    ensures Run(lib, moves).db.parcels[id].version == Count(Run(lib, moves).db.audits, ParcelUpdated, id) + 1
  {
    hide Run, Count, LegalLog, Replay;
    LogRebuildsTheDatabase(lib, moves);
    var db := Run(lib, moves).db;
    VersionsAreCounted(db.audits, id);
    MirroredVersion(Replay(db.audits), db, id);
  }

  lemma MirroredVersion(l: Ledger, db: Db, id: nat)
    requires Mirrors(l, db) && id in db.parcels
    ensures id in l.parcels && db.parcels[id].version == |l.parcels[id]|
  {
    hide SameDraft;
    assert ParcelAgrees(db.parcels[id], l.parcels[id]);
  }

  // --- Base versions ----------------------------------------------------------------------------

  lemma {:induction false} CallIsKept(lib: Library, moves: seq<Move>, n: nat, i: nat)
    requires n <= |moves| && i < |Run(lib, moves[..n]).calls|
    ensures i < |Run(lib, moves).calls|
    ensures var a, b := Run(lib, moves[..n]).calls[i], Run(lib, moves).calls[i]; a.actor == b.actor && a.req == b.req
    decreases |moves|
  {
    hide Advance;
    if n == |moves| {
      assert moves[..n] == moves;
    } else {
      var m := |moves| - 1;
      assert moves[..m][..n] == moves[..n];
      CallIsKept(lib, moves[..m], n, i);
      hide Run;
    }
  }

  /** The move after `n` moves is the one by which call `i` reads the parcel it will draw on. */
  ghost predicate ReadsParcel(lib: Library, moves: seq<Move>, n: nat, i: nat) {
    && n < |moves| && i < |Run(lib, moves[..n]).calls| && Run(lib, moves[..n]).calls[i].progress.Started?
    && i < |Run(lib, moves[..n + 1]).calls| && Run(lib, moves[..n + 1]).calls[i].progress.ParcelRead?
  }

  lemma BaseWasCurrent(lib: Library, moves: seq<Move>, n: nat, i: nat)
    requires ReadsParcel(lib, moves, n, i)
    ensures var s := Run(lib, moves[..n]); var req := s.calls[i].req;
      && req.CreateProposal? && req.parcelID in s.db.parcels && s.db.parcels[req.parcelID].version == req.baseVersion
  {
    var s := Run(lib, moves[..n]);
    assert moves[..n + 1][..n] == moves[..n];
    assert Run(lib, moves[..n + 1]) == Do(lib, s, moves[n]);
    hide Run, Parsed, AreaOf;
    MoveReads(lib, s, moves[n], i);
  }

  lemma MoveReads(lib: Library, s: System, move: Move, i: nat)
    requires WellPlaced(lib, s) && i < |s.calls| && s.calls[i].progress.Started?
    requires i < |Do(lib, s, move).calls| && Do(lib, s, move).calls[i].progress.ParcelRead?
    ensures var req := s.calls[i].req;
      && req.CreateProposal? && req.parcelID in s.db.parcels && s.db.parcels[req.parcelID].version == req.baseVersion
  {
    hide Parsed, AreaOf, Updated, Commit;
    StartReads(lib, s.db, s.calls[i].actor, s.calls[i].req);
    hide Start;
  }

  lemma StartReads(lib: Library, db: Db, actor: Actor, req: Request)
    ensures Start(lib, db, actor, req).ParcelRead? ==>
      req.CreateProposal? && req.parcelID in db.parcels && db.parcels[req.parcelID].version == req.baseVersion
  {
    hide Parsed, AreaOf, Updated;
  }

  /**
    When a proposal is committed, its parcel is ahead of the base version by exactly the updates logged
    since the parcel was read; so the base version is still current if and only if there was none.
   */
  lemma BaseVersionLag(lib: Library, moves: seq<Move>, n: nat, i: nat)
    requires ReadsParcel(lib, moves, n, i) && i < |Run(lib, moves).calls|
    requires var p := Run(lib, moves).calls[i].progress; p.Ready? && p.plan.CreateProposalPlan?
    requires var s := Run(lib, moves); var call := s.calls[i]; Commit(s.db, call.actor, call.req, call.progress.plan).Some?
    ensures var s := Run(lib, moves); var call := s.calls[i];
      var d := Commit(s.db, call.actor, call.req, call.progress.plan).value;
      var row := call.progress.plan.proposal.(id := s.db.next.proposal);
      && row.id in d.proposals && d.proposals[row.id] == row && row.parcelID in d.parcels
      && d.parcels[row.parcelID].version == row.baseVersion
           + Count(s.db.audits, ParcelUpdated, row.parcelID) - Count(Run(lib, moves[..n]).db.audits, ParcelUpdated, row.parcelID)
  {
    hide Run, Count, Advance, Parsed;
    var s, before := Run(lib, moves), Run(lib, moves[..n]);
    var call := s.calls[i];
    BaseWasCurrent(lib, moves, n, i);
    CallIsKept(lib, moves, n, i);
    VersionsCountUpdates(lib, moves[..n], call.req.parcelID);
    ParcelsRemain(lib, moves, n, call.req.parcelID);
    VersionsCountUpdates(lib, moves, call.req.parcelID);
    CreationStored(s.db, call.actor, call.progress.plan.proposal);
  }

  lemma ParcelsRemain(lib: Library, moves: seq<Move>, n: nat, id: nat)
    requires n <= |moves| && id in Run(lib, moves[..n]).db.parcels
    ensures id in Run(lib, moves).db.parcels
  {
    hide Run, Replay, LegalLog;
    HistoryIsKept(lib, moves, n, id);
    LogRebuildsTheDatabase(lib, moves);
    LogRebuildsTheDatabase(lib, moves[..n]);
    EveryRunIsSound(lib, moves[..n]);
    RowsAreSeen(lib, Run(lib, moves[..n]).db);
  }

  lemma CreationStored(db: Db, actor: Actor, item: Proposal)
    requires AddProposal(db, actor, item, ProposalCreated).Some?
    ensures var d := AddProposal(db, actor, item, ProposalCreated).value;
      db.next.proposal in d.proposals && d.proposals[db.next.proposal] == item.(id := db.next.proposal) && d.parcels == db.parcels
  {
  }

  // --- Two overlaps, from any reachable state ---------------------------------------------------------

  /** Changes the name only. */
  function Renaming(id: nat, name: string): Request {
    Request.UpdateParcel(id, Some(name), None, None, None, None, None)
  }

  /** Changes the owner only, and names the version it expects to find. */
  function Reassigning(id: nat, owner: string, version: nat): Request {
    Request.UpdateParcel(id, None, None, None, Some(owner), None, Some(version))
  }

  /**
    A lost update: a call copies a parcel, another renames it, and the first then commits against
    the version after its copy, which it named itself: the old name is back.
   */
  lemma NamingTheVersionCanLoseAnUpdate(lib: Library, db: Db, actor: Actor, id: nat, name: string, owner: string)
    requires id in db.parcels && db.parcels[id].id == id && actor.requestID != ""
    ensures var before := db.parcels[id];
      var req := Reassigning(id, owner, before.version + 1);
      var copied := Start(lib, db, actor, req);
      var (renamed, _) := Serve(lib, db, actor, Renaming(id, name), Started);
      var (d, p) := Advance(lib, renamed, actor, req, copied);
      && copied.Ready?
      && id in renamed.parcels && renamed.parcels[id].name == name && renamed.parcels[id].version == before.version + 1
      && p.Answered? && p.response.ParcelAnswer?
      && id in d.parcels && d.parcels[id].version == before.version + 2 && d.parcels[id].owner == owner && d.parcels[id].name == before.name
  {
    hide Serve, Parsed, AreaOf;
    UpdateOutcome(lib, db, actor, Renaming(id, name));
    CopiedBack(lib, Serve(lib, db, actor, Renaming(id, name), Started).0, actor, db.parcels[id], owner);
  }

  lemma CopiedBack(lib: Library, db: Db, actor: Actor, before: Parcel, owner: string)
    requires before.id in db.parcels && db.parcels[before.id].version == before.version + 1 && actor.requestID != ""
    ensures var version := before.version + 1;
      var plan := UpdateParcelPlan(before, before.(owner := owner), version);
      var (d, p) := Advance(lib, db, actor, Reassigning(before.id, owner, version), Ready(plan));
      && p.Answered? && p.response.ParcelAnswer?
      && before.id in d.parcels && d.parcels[before.id].version == version + 1
      && d.parcels[before.id].owner == owner && d.parcels[before.id].name == before.name
  {
  }

  /** One step of the call at `i`, which goes from `p` to `q` and leaves `d`. */
  lemma Stepped(lib: Library, moves: seq<Move>, i: nat, d: Db, q: Progress)
    requires i < |Run(lib, moves).calls|
    requires var s := Run(lib, moves); var call := s.calls[i];
      Advance(lib, s.db, call.actor, call.req, call.progress) == (d, q)
    ensures var s := Run(lib, moves);
      Run(lib, moves + [Step(i)]) == System(d, s.calls[i := s.calls[i].(progress := q)])
  {
    hide Run, Advance, Do;
    RunOn(lib, moves, Step(i));
    StepOfCall(lib, Run(lib, moves), i);
  }

  lemma Sent(lib: Library, moves: seq<Move>, actor: Actor, req: Request)
    ensures var s := Run(lib, moves);
      Run(lib, moves + [Send(actor, req)]) == System(s.db, s.calls + [Call(actor, req, Started)])
  {
    hide Run;
    RunOn(lib, moves, Send(actor, req));
  }

  /** A request takes its first step, and then another is served without interruption. */
  lemma HeldWhileServed(lib: Library, moves: seq<Move>, actor: Actor, req: Request, other: Request) returns (between: seq<Move>)
    ensures var s, t := Run(lib, moves), Run(lib, moves + between);
      && t.db == Serve(lib, s.db, actor, other, Started).0
      && |s.calls| < |t.calls| && t.calls[|s.calls|] == Call(actor, req, Start(lib, s.db, actor, req))
  {
    hide Run, Start, Advance, Serve;
    var s := Run(lib, moves);
    Sent(lib, moves, actor, req);
    StartStep(lib, s.db, actor, req);
    var sent := moves + [Send(actor, req)];
    Stepped(lib, sent, |s.calls|, s.db, Start(lib, s.db, actor, req));
    var served := ServingIsARun(lib, sent + [Step(|s.calls|)], actor, other);
    between := [Send(actor, req), Step(|s.calls|)] + served;
    assert moves + between == sent + [Step(|s.calls|)] + served;
  }

  /**
    From any state of any run: an update that names the version after the one it copies, with a rename
    served in between, undoes the rename. After the first `n` further moves the new name is stored, after
    all of them the old one is back, and both requests were answered with success.
   */
  lemma UpdatesCanBeLost(lib: Library, moves: seq<Move>, actor: Actor, id: nat, name: string, owner: string)
    returns (more: seq<Move>, n: nat)
    requires id in Run(lib, moves).db.parcels && actor.requestID != ""
    ensures n <= |more|
    ensures var before, during, after := Run(lib, moves).db.parcels, Run(lib, moves + more[..n]).db.parcels, Run(lib, moves + more).db.parcels;
      && id in during && during[id].name == name && during[id].version == before[id].version + 1
      && id in after && after[id].name == before[id].name && after[id].owner == owner && after[id].version == before[id].version + 2
  {
    hide Run, Start, Advance, Serve;
    var s := Run(lib, moves);
    var req := Reassigning(id, owner, s.db.parcels[id].version + 1);
    StoredUnderItself(lib, moves, id);
    NamingTheVersionCanLoseAnUpdate(lib, s.db, actor, id, name, owner);
    var between := HeldWhileServed(lib, moves, actor, req, Renaming(id, name));
    var (d, p) := Advance(lib, Run(lib, moves + between).db, actor, req, Start(lib, s.db, actor, req));
    Stepped(lib, moves + between, |s.calls|, d, p);
    more, n := between + [Step(|s.calls|)], |between|;
    assert more[..n] == between && moves + more == moves + between + [Step(|s.calls|)];
  }

  lemma StoredUnderItself(lib: Library, moves: seq<Move>, id: nat)
    requires id in Run(lib, moves).db.parcels
    ensures Run(lib, moves).db.parcels[id].id == id
  {
    hide Run, Sound;
    EveryRunIsSound(lib, moves);
    RowsAreSeen(lib, Run(lib, moves).db);
  }

  lemma StartStep(lib: Library, db: Db, actor: Actor, req: Request)
    ensures Advance(lib, db, actor, req, Started) == (db, Start(lib, db, actor, req))
  {
    hide Start;
  }

  function Drawing(id: nat, version: nat, geometry: string): Request {
    Request.CreateProposal(id, version, geometry, [], 0.0, "")
  }

  /** The steps of a creation without citations. */
  lemma DrawingSteps(lib: Library, db: Db, actor: Actor, id: nat, geometry: string)
    requires id in db.parcels && Parsed(lib, geometry).Some?
    ensures var parcel := db.parcels[id]; var req := Drawing(id, parcel.version, geometry);
      Start(lib, db, actor, req) == ParcelRead(parcel, 0)
  {
    hide Parsed, AreaOf;
  }

  lemma DrawnLater(lib: Library, db: Db, actor: Actor, id: nat, geometry: string, parcel: Parcel)
    requires Parsed(lib, geometry).Some? && actor.requestID != ""
    ensures var req := Drawing(id, parcel.version, geometry);
      && Fits(lib, req, ParcelRead(parcel, 0))
      && var (d, q) := Advance(lib, db, actor, req, ParcelRead(parcel, 0));
         && d == db && q.Ready? && Fits(lib, req, q)
         && var (e, p) := Advance(lib, db, actor, req, q);
            && p.Answered? && p.response.ProposalAnswer?
            && db.next.proposal in e.proposals && e.proposals[db.next.proposal].parcelID == id
            && e.proposals[db.next.proposal].baseVersion == parcel.version && e.parcels == db.parcels
  {
    hide Parsed, AreaOf;
  }

  /**
    From any state of any run: a proposal whose parcel is updated after it was read is committed on the
    version before, though the check of the base version was passed.
   */
  lemma BaseVersionsCanLag(lib: Library, moves: seq<Move>, actor: Actor, id: nat, geometry: string, name: string)
    returns (more: seq<Move>, p: nat)
    requires id in Run(lib, moves).db.parcels && Parsed(lib, geometry).Some? && actor.requestID != ""
    ensures var before, after := Run(lib, moves).db, Run(lib, moves + more).db;
      && p in after.proposals && after.proposals[p].parcelID == id && id in after.parcels
      && after.proposals[p].baseVersion == before.parcels[id].version
      && after.parcels[id].version == before.parcels[id].version + 1
  {
    hide Run, Start, Advance, Serve, Fits, Parsed, AreaOf;
    var s := Run(lib, moves);
    var parcel, i := s.db.parcels[id], |s.calls|;
    var req := Drawing(id, parcel.version, geometry);
    StoredUnderItself(lib, moves, id);
    DrawingSteps(lib, s.db, actor, id, geometry);
    var between := HeldWhileServed(lib, moves, actor, req, Renaming(id, name));
    UpdateOutcome(lib, s.db, actor, Renaming(id, name));
    var db := Run(lib, moves + between).db;
    DrawnLater(lib, db, actor, id, geometry, parcel);
    var q := Advance(lib, db, actor, req, ParcelRead(parcel, 0)).1;
    Stepped(lib, moves + between, i, db, q);
    var (e, a) := Advance(lib, db, actor, req, q);
    Stepped(lib, moves + between + [Step(i)], i, e, a);
    more, p := between + [Step(i), Step(i)], db.next.proposal;
    assert moves + more == moves + between + [Step(i)] + [Step(i)];
  }

  /** A state with a parcel is reached from the empty database, whatever boundary and coordinate system are accepted. */
  lemma ParcelsAreReached(lib: Library, actor: Actor, boundary: string, system: string) returns (moves: seq<Move>, id: nat)
    requires lib.systemAllowed(system) && Parsed(lib, boundary).Some? && actor.requestID != ""
    ensures id in Run(lib, moves).db.parcels && Run(lib, moves).db.parcels[id].name == ""
  {
    hide Run, Serve, Parsed, AreaOf;
    var req := Request.CreateParcel("", "", boundary, system, "", "");
    NothingStored(lib);
    moves := ServingIsARun(lib, [], actor, req);
    assert [] + moves == moves;
    ParcelCreationOutcome(lib, EMPTY_DB, actor, req);
    id := EMPTY_DB.next.parcel;
  }

  /** So both overlaps happen in runs from the empty database: an update is lost, and a proposal's base version lags. */
  lemma OverlapsAreReached(lib: Library, actor: Actor, boundary: string, system: string, name: string, owner: string)
    returns (lost: seq<Move>, k: nat, n: nat, lagging: seq<Move>, p: nat, id: nat)
    requires lib.systemAllowed(system) && Parsed(lib, boundary).Some? && actor.requestID != "" && name != ""
    ensures k <= n <= |lost|
    ensures var a, b, c := Run(lib, lost[..k]).db.parcels, Run(lib, lost[..n]).db.parcels, Run(lib, lost).db.parcels;
      && id in a && id in b && id in c && a[id].version < b[id].version < c[id].version
      && a[id].name != name && b[id].name == name && c[id].name == a[id].name && c[id].owner == owner
    ensures var d := Run(lib, lagging).db;
      && p in d.proposals && d.proposals[p].parcelID in d.parcels
      && d.proposals[p].baseVersion < d.parcels[d.proposals[p].parcelID].version
  {
    hide Run, Parsed;
    var moves, at := ParcelsAreReached(lib, actor, boundary, system);
    id := at;
    var more, m := UpdatesCanBeLost(lib, moves, actor, id, name, owner);
    lost, k, n := moves + more, |moves|, |moves| + m;
    assert lost[..k] == moves && lost[..n] == moves + more[..m];
    var later, q := BaseVersionsCanLag(lib, moves, actor, id, boundary, name);
    lagging, p := moves + later, q;
  }
}
