/**
  Requests as interleaved steps. A call reads rows one query at a time, checks its guards,
  and then runs one all-or-nothing transaction; between any two of its steps other calls
  may take theirs. `Advance` is one step of one call.
 */
module Calls {
  import opened Options
  import opened Boundaries
  import opened Lifecycles
  import opened Records
  import opened Requests
  import Hashing

  /** What a call has decided to write, from the snapshots it read. */
  datatype Plan =
    | CreateParcelPlan(parcel: Parcel)
    | UpdateParcelPlan(parcelBefore: Parcel, parcelAfter: Parcel, version: nat)
    | ImportPlan(observation: Observation)
    | ChangeObservationPlan(observationBefore: Observation, toObservation: ObservationState, replacement: Option<nat>, note: string)
    | CreateProposalPlan(proposal: Proposal)
    | ChangeProposalPlan(proposalBefore: Proposal, toProposal: ProposalState, rationale: string)
    | ChangeConflictPlan(conflictBefore: Conflict, toConflict: ConflictState)
    | ApplyPlan(conflictBefore: Conflict, proposal: Proposal)
    | DetectPlan(source: Proposal, parcelID: nat, detections: seq<Detection>, requestHash: string, inputHash: string)

  /** How far a call has got, with the rows it has read so far. */
  datatype Progress =
    | Started
    | ObservationRead(observation: Observation)
    | ParcelRead(parcel: Parcel, checked: nat)
    | ConflictRead(conflict: Conflict)
    | SourceRead(conflict: Conflict, proposal: Proposal)
    | ProposalRead(proposal: Proposal)
    | KeyUnused(proposal: Proposal)
    | ParcelOfProposalRead(proposal: Proposal, parcel: Parcel)
    | Ready(plan: Plan)
    | TransactionFailed(requestHash: string)
    | Replaying(run: DetectionRun)
    | Answered(response: Response)

  /** Which requests reach which points. */
  predicate Fits(lib: Library, req: Request, p: Progress) {
    match p
    case Started => true
    case ObservationRead(_) => req.TransitionObservation? && req.replacement.Some?
    case ParcelRead(_, checked) => req.CreateProposal? && checked <= |req.observationIDs| && Parsed(lib, req.geometry).Some?
    case ConflictRead(_) => req.ApplySuggestion?
    case SourceRead(conflict, _) => req.ApplySuggestion? && Parsed(lib, conflict.detection.suggestion.snapped).Some?
    case ProposalRead(_) => req.DetectConflicts?
    case KeyUnused(_) => req.DetectConflicts?
    case ParcelOfProposalRead(proposal, parcel) =>
      req.DetectConflicts? && Parsed(lib, parcel.boundary).Some? && Parsed(lib, proposal.geometry).Some?
    case Ready(plan) =>
      && (plan.DetectPlan? ==> req.DetectConflicts?)
      && (plan.CreateProposalPlan? ==>
            req.CreateProposal? && plan.proposal.parcelID == req.parcelID && plan.proposal.baseVersion == req.baseVersion)
    case TransactionFailed(_) => req.DetectConflicts?
    case Replaying(_) => req.DetectConflicts?
    case Answered(_) => true
  }

  function Fail(error: ErrorKind): Progress {
    Answered(Failed(error))
  }

  // --- The reads ------------------------------------------------------------------------

  /** The first query of a request and the guards that follow it. */
  function Start(lib: Library, db: Db, actor: Actor, req: Request): (p: Progress)
    ensures Fits(lib, req, p)
  {
    match req
    case CreateParcel(code, name, boundary, system, owner, state) =>
      if !lib.systemAllowed(system) || Parsed(lib, boundary).None? then Fail(Unprocessable)
      else Ready(CreateParcelPlan(Parcel(0, code, name, boundary, system, AreaOf(lib, boundary), 1, owner,
                                         if state == "" then "active" else state)))
    case UpdateParcel(id, _, _, _, _, _, newVersion) =>
      if id !in db.parcels then Fail(NotFound)
      else
        var before := db.parcels[id];
        (match Updated(lib, before, req)
         case None => Fail(Unprocessable)
         case Some(after) => Ready(UpdateParcelPlan(before, after, if newVersion.Some? then newVersion.value else before.version)))
    case ImportObservation(parcelID, code, point, evidence, state, note) =>
      if parcelID !in db.parcels then Fail(NotFound)
      else if !lib.isPoint(point) then Fail(Unprocessable)
      else Ready(ImportPlan(Observation(0, parcelID, code, point, evidence,
                                        if state.Some? then state.value else Usable, 1, None, note, actor.id)))
    case TransitionObservation(id, to, version, replacement, note) =>
      if id !in db.observations then Fail(NotFound)
      else
        var item := db.observations[id];
        if item.version != version then Fail(StateConflict)
        else if !CanTransitionObservation(item.state, to) then Fail(StateConflict)
        else if !(actor.role == Surveyor || actor.role == GISAnalyst || actor.role == Admin) then Fail(Forbidden)
        else if to == Superseded then
          if replacement.None? || replacement.value == item.id then Fail(InvalidInput) else ObservationRead(item)
        else if replacement.Some? then Fail(InvalidInput)
        else Ready(ChangeObservationPlan(item, to, None, note))
    case CreateProposal(parcelID, baseVersion, geometry, _, _, _) =>
      if parcelID !in db.parcels then Fail(NotFound)
      else if db.parcels[parcelID].version != baseVersion then Fail(StateConflict)
      else if Parsed(lib, geometry).None? then Fail(Unprocessable)
      else ParcelRead(db.parcels[parcelID], 0)
    case TransitionProposal(id, to, _, rationale) =>
      if id !in db.proposals then Fail(NotFound)
      else
        var item := db.proposals[id];
        if !CanProposalTransition(item.state, to) then Fail(StateConflict)
        else if !MayMoveProposal(item.createdBy, to, actor.id, actor.role) then Fail(Forbidden)
        else Ready(ChangeProposalPlan(item, to, rationale))
    case TransitionConflict(id, to) =>
      if id !in db.conflicts then Fail(NotFound)
      else if !CanConflictTransition(db.conflicts[id].state, to) then Fail(StateConflict)
      else Ready(ChangeConflictPlan(db.conflicts[id], to))
    case ApplySuggestion(id, _) =>
      if !(actor.role == Reviewer || actor.role == Admin) then Fail(Forbidden)
      else if id !in db.conflicts then Fail(NotFound)
      else if db.conflicts[id].state != ResolutionProposed then Fail(StateConflict)
      else ConflictRead(db.conflicts[id])
    case DetectConflicts(proposalID, _, key, _) =>
      if !KeyAccepted(key) then Fail(InvalidInput)
      else if proposalID !in db.proposals then Fail(NotFound)
      else ProposalRead(db.proposals[proposalID])
  }

  function CheckReplacement(db: Db, item: Observation, to: ObservationState, replacement: nat, note: string): (p: Progress)
    ensures p.Answered? || (p.Ready? && p.plan.ChangeObservationPlan?)
  {
    if replacement !in db.observations then Fail(NotFound)
    else if db.observations[replacement].parcelID != item.parcelID || db.observations[replacement].state == Superseded
    then Fail(StateConflict)
    else Ready(ChangeObservationPlan(item, to, Some(replacement), note))
  }

  /** Checks the next cited observation, or drafts the proposal when all have been checked. */
  function CheckCited(lib: Library, db: Db, actor: Actor, req: Request, parcel: Parcel, checked: nat): (p: Progress)
    requires Fits(lib, req, ParcelRead(parcel, checked))
    ensures Fits(lib, req, p)
  {
    if checked == |req.observationIDs| then
      Ready(CreateProposalPlan(Proposal(
        0, req.parcelID, req.baseVersion, req.geometry, req.observationIDs, req.tolerance,
        AreaOf(lib, req.geometry) - parcel.area, Draft, req.rationale, 1, actor.id, None)))
    else
      var id := req.observationIDs[checked];
      if id !in db.observations || db.observations[id].parcelID != req.parcelID then Fail(InvalidInput)
      else ParcelRead(parcel, checked + 1)
  }

  function LoadSource(lib: Library, db: Db, conflict: Conflict): Progress {
    if conflict.detection.proposalID !in db.proposals then Fail(NotFound)
    else if Parsed(lib, conflict.detection.suggestion.snapped).None? then Fail(Internal)
    else SourceRead(conflict, db.proposals[conflict.detection.proposalID])
  }

  function DefaultRationale(conflictID: nat): string {
    "Applied deterministic suggestion from topology conflict " + Hashing.Decimal(conflictID) + "."
  }

  /** The draft an applied suggestion becomes, on the parcel as it is now. */
  function Derive(lib: Library, db: Db, actor: Actor, conflict: Conflict, source: Proposal, rationale: string): (p: Progress)
    ensures p.Answered? || (p.Ready? && p.plan.ApplyPlan?)
  {
    if source.parcelID !in db.parcels then Fail(NotFound)
    else
      var parcel := db.parcels[source.parcelID];
      Ready(ApplyPlan(conflict, Proposal(
        0, source.parcelID, parcel.version, conflict.detection.suggestion.snapped, source.observationIDs, source.tolerance,
        AreaOf(lib, conflict.detection.suggestion.snapped) - parcel.area, Draft,
        if rationale == "" then DefaultRationale(conflict.id) else rationale,
        source.version + 1, actor.id, None)))
  }

  function RequestHashOf(lib: Library, req: Request, proposal: Proposal): string
    requires req.DetectConflicts?
  {
    HashOfRequest(lib, req.proposalID, EffectiveTolerance(req.tolerance, proposal))
  }

  /** A stored run answers only requests with its own hash. */
  function Reuse(run: DetectionRun, hash: string): (p: Progress)
    ensures p.Replaying? || p.Answered?
  {
    if run.requestHash != hash then Fail(StateConflict) else Replaying(run)
  }

  function LookUpKey(lib: Library, db: Db, actor: Actor, req: Request, proposal: Proposal): (p: Progress)
    requires req.DetectConflicts?
    ensures Fits(lib, req, p)
  {
    match db.RunFor(actor.id, req.key)
    case Some(run) => Reuse(run, RequestHashOf(lib, req, proposal))
    case None => KeyUnused(proposal)
  }

  function LoadParcel(lib: Library, db: Db, proposal: Proposal): Progress {
    if proposal.parcelID !in db.parcels then Fail(NotFound)
    else
      var parcel := db.parcels[proposal.parcelID];
      if Parsed(lib, parcel.boundary).None? || Parsed(lib, proposal.geometry).None? then Fail(Unprocessable)
      else ParcelOfProposalRead(proposal, parcel)
  }

  function Analyse(lib: Library, db: Db, req: Request, proposal: Proposal, parcel: Parcel): (p: Progress)
    requires Fits(lib, req, ParcelOfProposalRead(proposal, parcel))
    ensures Fits(lib, req, p)
  {
    var neighbours := db.ActiveNeighbours(parcel.coordinateSystem, parcel.id);
    var tolerance := EffectiveTolerance(req.tolerance, proposal);
    match Analysed(lib, proposal, parcel, neighbours, tolerance, req.now)
    case Err(error) => Fail(error)
    case Ok(detections) =>
      Ready(DetectPlan(proposal, parcel.id, detections, RequestHashOf(lib, req, proposal),
                       Hashing.InputHash(InputOf(lib, proposal, parcel, neighbours, tolerance))))
  }

  function LoadResults(db: Db, run: DetectionRun): Progress {
    match db.ConflictsByID(run.resultIDs)
    case None => Fail(Internal)
    case Some(items) => Answered(ConflictsAnswer(items))
  }

  // --- The transactions -------------------------------------------------------------------

  function AddParcel(db: Db, actor: Actor, item: Parcel): Option<Db> {
    match db.InsertParcel(item)
    case None => None
    case Some(tx) =>
      tx.Audit(EntryOf(actor, ParcelCreated, db.next.parcel, Some(db.next.parcel), Nothing, OfParcel(item.(id := db.next.parcel))))
  }

  function ReplaceParcel(db: Db, actor: Actor, before: Parcel, after: Parcel, version: nat): Option<Db> {
    match db.UpdateParcel(after, version)
    case None => None
    case Some(tx) =>
      tx.Audit(EntryOf(actor, ParcelUpdated, before.id, Some(before.id), OfParcel(before), OfParcel(after)))
  }

  function AddObservation(db: Db, actor: Actor, item: Observation): Option<Db> {
    match db.InsertObservation(item)
    case None => None
    case Some(tx) =>
      tx.Audit(EntryOf(actor, ObservationImported, db.next.observation, Some(item.parcelID), Nothing,
                       OfObservation(item.(id := db.next.observation))))
  }

  function ChangeObservation(db: Db, actor: Actor, before: Observation, to: ObservationState, replacement: Option<nat>, note: string): Option<Db> {
    match db.TransitionObservation(before.id, before.version, to, replacement, note)
    case None => None
    case Some(tx) =>
      tx.Audit(EntryOf(actor, ObservationStateChanged, before.id, Some(before.parcelID), OfObservation(before),
                       ObservationMove(to, before.version + 1, replacement, note)))
  }

  function AddProposal(db: Db, actor: Actor, item: Proposal, action: Action): Option<Db> {
    db.InsertProposal(item).Audit(
      EntryOf(actor, action, db.next.proposal, Some(item.parcelID), Nothing, OfProposal(item.(id := db.next.proposal))))
  }

  function ReviewerFor(actor: Actor, to: ProposalState): Option<nat> {
    if IsProposalReviewTransition(to) then Some(actor.id) else None
  }

  function ChangeProposal(db: Db, actor: Actor, before: Proposal, to: ProposalState, rationale: string): Option<Db> {
    match db.TransitionProposal(before.id, before.version, before.state, to, rationale, ReviewerFor(actor, to))
    case None => None
    case Some(tx) =>
      tx.Audit(EntryOf(actor, ProposalStateChanged, before.id, Some(before.parcelID), OfProposal(before),
                       ProposalMove(to, before.version + 1)))
  }

  function ResolverFor(actor: Actor, to: ConflictState): Option<nat> {
    if Settled(to) then Some(actor.id) else None
  }

  function ChangeConflict(db: Db, actor: Actor, before: Conflict, to: ConflictState): Option<Db> {
    match db.TransitionConflict(before.id, before.state, to, ResolverFor(actor, to))
    case None => None
    case Some(tx) =>
      tx.Audit(EntryOf(actor, ConflictStateChanged, before.id, None, OfConflict(before), ConflictMove(to)))
  }

  /** The second half of applying a suggestion: the source conflict is resolved in favour of `derivedID`. */
  function SettleConflict(db: Db, actor: Actor, before: Conflict, derivedID: nat): Option<Db> {
    match db.TransitionConflict(before.id, before.state, Resolved, Some(actor.id))
    case None => None
    case Some(tx) =>
      tx.Audit(EntryOf(actor, ConflictSuggestionApplied, before.id, Some(derivedID), OfConflict(before), SuggestionMove(Resolved, derivedID)))
  }

  function Apply(db: Db, actor: Actor, conflict: Conflict, derived: Proposal): Option<Db> {
    match AddProposal(db, actor, derived, ProposalCreatedFromConflict)
    case None => None
    case Some(tx) => SettleConflict(tx, actor, conflict, db.next.proposal)
  }

  function AddConflict(db: Db, actor: Actor, parcelID: nat, detection: Detection): Option<Db> {
    db.InsertConflict(detection).Audit(
      EntryOf(actor, ConflictDetected, db.next.conflict, Some(parcelID), Nothing,
              OfConflict(Conflict(db.next.conflict, detection, Detected, None))))
  }

  function AddConflicts(db: Db, actor: Actor, parcelID: nat, detections: seq<Detection>): Option<Db> {
    if |detections| == 0 then Some(db)
    else
      match AddConflicts(db, actor, parcelID, detections[..|detections| - 1])
      case None => None
      case Some(tx) => AddConflict(tx, actor, parcelID, detections[|detections| - 1])
  }

  function CompleteRun(db: Db, actor: Actor, item: DetectionRun): Option<Db> {
    match db.InsertRun(item)
    case None => None
    case Some(tx) =>
      tx.Audit(EntryOf(actor, DetectionCompleted, db.next.run, Some(item.proposalID), Nothing, OfRun(item.(id := db.next.run))))
  }

  /** `n` consecutive identifiers. */
  function Consecutive(first: nat, n: nat): (ids: seq<nat>)
    ensures |ids| == n && forall i | 0 <= i < n :: ids[i] == first + i
  {
    seq(n, i requires 0 <= i => first + i)
  }

  function Detect(db: Db, actor: Actor, key: string, plan: Plan): Option<Db>
    requires plan.DetectPlan?
  {
    match AddConflicts(db, actor, plan.parcelID, plan.detections)
    case None => None
    case Some(tx) =>
      CompleteRun(tx, actor, DetectionRun(0, plan.source.id, actor.id, key, plan.requestHash, plan.inputHash,
                                          Consecutive(db.next.conflict, |plan.detections|)))
  }

  /** The whole transaction of a plan. */
  function Commit(db: Db, actor: Actor, req: Request, plan: Plan): Option<Db>
    requires plan.DetectPlan? ==> req.DetectConflicts?
  {
    match plan
    case CreateParcelPlan(parcel) => AddParcel(db, actor, parcel)
    case UpdateParcelPlan(before, after, version) => ReplaceParcel(db, actor, before, after, version)
    case ImportPlan(observation) => AddObservation(db, actor, observation)
    case ChangeObservationPlan(before, to, replacement, note) => ChangeObservation(db, actor, before, to, replacement, note)
    case CreateProposalPlan(proposal) => AddProposal(db, actor, proposal, ProposalCreated)
    case ChangeProposalPlan(before, to, rationale) => ChangeProposal(db, actor, before, to, rationale)
    case ChangeConflictPlan(before, to) => ChangeConflict(db, actor, before, to)
    case ApplyPlan(conflict, derived) => Apply(db, actor, conflict, derived)
    case DetectPlan(_, _, _, _, _) => Detect(db, actor, req.key, plan)
  }

  function DetectedItems(first: nat, detections: seq<Detection>): (items: seq<Conflict>)
    ensures |items| == |detections|
    ensures forall i | 0 <= i < |items| :: items[i] == Conflict(first + i, detections[i], Detected, None)
  {
    seq(|detections|, i requires 0 <= i < |detections| => Conflict(first + i, detections[i], Detected, None))
  }

  /** What a call is told when its transaction went through. */
  function Confirmation(db: Db, actor: Actor, plan: Plan): Response {
    match plan
    case CreateParcelPlan(parcel) => ParcelAnswer(parcel.(id := db.next.parcel))
    case UpdateParcelPlan(_, after, version) => ParcelAnswer(after.(version := version + 1))
    case ImportPlan(observation) => ObservationAnswer(observation.(id := db.next.observation))
    case ChangeObservationPlan(before, to, replacement, note) =>
      ObservationAnswer(before.(state := to, version := before.version + 1, replacedBy := replacement,
                                note := if note != "" then note else before.note))
    case CreateProposalPlan(proposal) => ProposalAnswer(proposal.(id := db.next.proposal))
    case ChangeProposalPlan(before, to, _) =>
      ProposalAnswer(before.(state := to, version := before.version + 1,
                             reviewedBy := if IsProposalReviewTransition(to) then Some(actor.id) else before.reviewedBy))
    case ChangeConflictPlan(before, to) => ConflictAnswer(before.(state := to, resolvedBy := ResolverFor(actor, to)))
    case ApplyPlan(_, derived) => ProposalAnswer(derived.(id := db.next.proposal))
    case DetectPlan(_, _, detections, _, _) => ConflictsAnswer(DetectedItems(db.next.conflict, detections))
  }

  /** What it is told, or does next, when the transaction was rolled back. */
  function Refusal(db: Db, plan: Plan): Progress {
    match plan
    case CreateParcelPlan(parcel) => if db.ParcelCodeTaken(parcel.code) then Fail(StateConflict) else Fail(Internal)
    case ChangeObservationPlan(_, _, _, _) => Fail(StateConflict)
    case ChangeProposalPlan(_, _, _) => Fail(StateConflict)
    case ChangeConflictPlan(_, _) => Fail(StateConflict)
    case DetectPlan(_, _, _, requestHash, _) => TransactionFailed(requestHash)
    case _ => Fail(Internal)
  }

  // --- One step of one call ------------------------------------------------------------------

  function Advance(lib: Library, db: Db, actor: Actor, req: Request, p: Progress): (r: (Db, Progress))
    requires Fits(lib, req, p)
    ensures Fits(lib, req, r.1)
    ensures !p.Ready? ==> r.0 == db
  {
    match p
    case Started => (db, Start(lib, db, actor, req))
    case ObservationRead(item) => (db, CheckReplacement(db, item, req.toObservation, req.replacement.value, req.note))
    case ParcelRead(parcel, checked) => (db, CheckCited(lib, db, actor, req, parcel, checked))
    case ConflictRead(conflict) => (db, LoadSource(lib, db, conflict))
    case SourceRead(conflict, proposal) => (db, Derive(lib, db, actor, conflict, proposal, req.rationale))
    case ProposalRead(proposal) => (db, LookUpKey(lib, db, actor, req, proposal))
    case KeyUnused(proposal) => (db, LoadParcel(lib, db, proposal))
    case ParcelOfProposalRead(proposal, parcel) => (db, Analyse(lib, db, req, proposal, parcel))
    case Ready(plan) =>
      (match Commit(db, actor, req, plan)
       case Some(committed) => (committed, Answered(Confirmation(db, actor, plan)))
       case None => (db, Refusal(db, plan)))
    case TransactionFailed(hash) =>
      (match db.RunFor(actor.id, req.key)
       case Some(run) => (db, Reuse(run, hash))
       case None => (db, Fail(Internal)))
    case Replaying(run) => (db, LoadResults(db, run))
    case Answered(_) => (db, p)
  }

  /** A bound on the steps a call still takes. */
  function Remaining(req: Request, p: Progress): nat {
    match p
    case Started => 10 + if req.CreateProposal? then |req.observationIDs| else 0
    case ObservationRead(_) => 9
    case ParcelRead(_, checked) =>
      9 + if req.CreateProposal? && checked <= |req.observationIDs| then |req.observationIDs| - checked else 0
    case ConflictRead(_) => 9
    case SourceRead(_, _) => 8
    case ProposalRead(_) => 9
    case KeyUnused(_) => 8
    case ParcelOfProposalRead(_, _) => 7
    case Ready(_) => 6
    case TransactionFailed(_) => 5
    case Replaying(_) => 4
    case Answered(_) => 0
  }

  /** Every step brings the answer nearer, whatever the other calls do in between. */
  lemma StepsRunOut(lib: Library, db: Db, actor: Actor, req: Request, p: Progress)
    requires Fits(lib, req, p) && !p.Answered?
    ensures Remaining(req, Advance(lib, db, actor, req, p).1) < Remaining(req, p)
  {
    hide Parsed, AreaOf, Updated, Commit, Confirmation, Analysed, InputOf, Hashing.InputHash, Hashing.Decimal, RequestHashOf,
      Db.RunFor, Db.ActiveNeighbours, Db.ConflictsByID, Db.ParcelCodeTaken;
  }

  /** A call served without interruption. */
  function Serve(lib: Library, db: Db, actor: Actor, req: Request, p: Progress): (Db, Response)
    requires Fits(lib, req, p)
    decreases Remaining(req, p)
  {
    if p.Answered? then (db, p.response)
    else
      StepsRunOut(lib, db, actor, req, p);
      var (next, q) := Advance(lib, db, actor, req, p);
      Serve(lib, next, actor, req, q)
  }

  lemma AnswerServed(lib: Library, db: Db, actor: Actor, req: Request, response: Response)
    ensures Serve(lib, db, actor, req, Answered(response)) == (db, response)
  {
  }

  /** One step of a call served alone. */
  lemma ServedOn(lib: Library, db: Db, actor: Actor, req: Request, p: Progress)
    requires Fits(lib, req, p) && !p.Answered?
    ensures Serve(lib, db, actor, req, p) ==
      Serve(lib, Advance(lib, db, actor, req, p).0, actor, req, Advance(lib, db, actor, req, p).1)
  {
    hide Advance, Fits;
  }

  lemma CommitStep(lib: Library, db: Db, actor: Actor, req: Request, plan: Plan)
    requires Fits(lib, req, Ready(plan))
    ensures Advance(lib, db, actor, req, Ready(plan)) ==
      match Commit(db, actor, req, plan)
      case Some(committed) => (committed, Answered(Confirmation(db, actor, plan)))
      case None => (db, Refusal(db, plan))
    ensures plan.DetectPlan? ==> Refusal(db, plan) == TransactionFailed(plan.requestHash)
    ensures !plan.DetectPlan? ==> Refusal(db, plan).Answered? && Refusal(db, plan).response.Failed?
  {
    hide Commit, Confirmation;
  }

  predicate NearlyDone(p: Progress) {
    p.Answered? || (p.Ready? && !p.plan.DetectPlan?)
  }

  /** How a call ends that only has its transaction left, if that. */
  function Concluded(db: Db, actor: Actor, req: Request, p: Progress): (Db, Response)
    requires NearlyDone(p)
  {
    if p.Answered? then (db, p.response)
    else
      match Commit(db, actor, req, p.plan)
      case Some(committed) => (committed, Confirmation(db, actor, p.plan))
      case None => (db, Refusal(db, p.plan).response)
  }

  lemma ServedToTheEnd(lib: Library, db: Db, actor: Actor, req: Request, p: Progress)
    requires Fits(lib, req, p) && NearlyDone(p)
    ensures Serve(lib, db, actor, req, p) == Concluded(db, actor, req, p)
  {
    hide Commit, Confirmation, Serve, Parsed, Advance;
    if p.Answered? {
      AnswerServed(lib, db, actor, req, p.response);
    } else {
      ServedOn(lib, db, actor, req, p);
      CommitStep(lib, db, actor, req, p.plan);
      AnswerServed(lib, Advance(lib, db, actor, req, p).0, actor, req, Advance(lib, db, actor, req, p).1.response);
    }
  }

  /** A call that needs no more than one read before its transaction. */
  lemma ServedAtOnce(lib: Library, db: Db, actor: Actor, req: Request)
    ensures var p := Start(lib, db, actor, req);
      && (p.Ready? ==> !p.plan.DetectPlan?)
      && (NearlyDone(p) ==> Serve(lib, db, actor, req, Started) == Concluded(db, actor, req, p))
  {
    hide Start, Concluded, Serve, Parsed;
    var p := Start(lib, db, actor, req);
    ServedOn(lib, db, actor, req, Started);
    StartNeverDetects(lib, db, actor, req);
    if NearlyDone(p) {
      ServedToTheEnd(lib, db, actor, req, p);
    }
  }

  lemma StartNeverDetects(lib: Library, db: Db, actor: Actor, req: Request)
    ensures var p := Start(lib, db, actor, req); p.Ready? ==> !p.plan.DetectPlan?
  {
    hide Parsed, AreaOf, Updated;
  }

  // --- Many calls ------------------------------------------------------------------------------

  datatype Call = Call(actor: Actor, req: Request, progress: Progress)

  datatype System = System(db: Db, calls: seq<Call>)

  /** A client sends a request, a call takes its next step, or the database's sequences skip identifiers. */
  datatype Move =
    | Send(actor: Actor, req: Request)
    | Step(call: nat)
    | SkipIDs(upTo: Sequences)

  function Later(next: Sequences, upTo: Sequences): Sequences {
    Sequences(Max(next.parcel, upTo.parcel), Max(next.observation, upTo.observation), Max(next.proposal, upTo.proposal),
              Max(next.conflict, upTo.conflict), Max(next.run, upTo.run))
  }

  function Max(a: nat, b: nat): nat {
    if a < b then b else a
  }

  /** A call is where its request can have taken it. */
  predicate WellPlaced(lib: Library, s: System) {
    forall i | 0 <= i < |s.calls| :: Fits(lib, s.calls[i].req, s.calls[i].progress)
  }

  function Do(lib: Library, s: System, move: Move): (r: System)
    requires WellPlaced(lib, s)
    ensures WellPlaced(lib, r)
  {
    match move
    case Send(actor, req) => s.(calls := s.calls + [Call(actor, req, Started)])
    case Step(i) =>
      if i >= |s.calls| then s
      else
        var call := s.calls[i];
        var (db, progress) := Advance(lib, s.db, call.actor, call.req, call.progress);
        System(db, s.calls[i := call.(progress := progress)])
    case SkipIDs(upTo) => s.(db := s.db.(next := Later(s.db.next, upTo)))
  }

  /** The state after any sequence of moves, from an empty database. */
  function Run(lib: Library, moves: seq<Move>): (s: System)
    ensures WellPlaced(lib, s)
  {
    if |moves| == 0 then System(EMPTY_DB, [])
    else Do(lib, Run(lib, moves[..|moves| - 1]), moves[|moves| - 1])
  }
}
