/** Roles and the three state machines: the fixed transition tables and what they imply. */
module Lifecycles {

  datatype Role = Surveyor | GISAnalyst | Reviewer | Auditor | Admin | UnknownRole(name: string)

  datatype ProposalState =
    | Draft | Validated | Submitted | Reviewed | Revision | Accepted | Rejected
    | UnknownProposalState(name: string)

  datatype ConflictState =
    | Detected | Confirmed | FalsePositive | ResolutionProposed | Resolved | Closed
    | UnknownConflictState(name: string)

  datatype ObservationState = Usable | Discarded | Superseded | UnknownObservationState(name: string)

  // --- Proposals: a five-step cycle with two exits -----------------------------------

  predicate CanProposalTransition(from: ProposalState, to: ProposalState) {
    match from
    case Draft => to == Validated
    case Validated => to == Submitted
    case Submitted => to == Reviewed
    case Reviewed => to == Accepted || to == Rejected || to == Revision
    case Revision => to == Draft
    case _ => false
  }

  /** The position in the cycle; both exits share the last one with revision. */
  function Phase(s: ProposalState): nat {
    match s
    case Draft => 0
    case Validated => 1
    case Submitted => 2
    case Reviewed => 3
    case _ => 4
  }

  lemma TransitionAdvancesPhase(from: ProposalState, to: ProposalState)
    requires CanProposalTransition(from, to)
    ensures Phase(to) == (Phase(from) + 1) % 5
  {
  }

  predicate IsProposalReviewTransition(to: ProposalState) {
    to == Reviewed || to == Accepted || to == Rejected || to == Revision
  }

  /** Authoring moves need the author or an administrator; review moves a reviewer or administrator other than the author. */
  predicate MayMoveProposal(author: nat, to: ProposalState, actorID: nat, role: Role) {
    match to
    case Validated => actorID == author || role == Admin
    case Submitted => actorID == author || role == Admin
    case Draft => actorID == author || role == Admin
    case Reviewed => (role == Reviewer || role == Admin) && actorID != author
    case Accepted => (role == Reviewer || role == Admin) && actorID != author
    case Rejected => (role == Reviewer || role == Admin) && actorID != author
    case Revision => (role == Reviewer || role == Admin) && actorID != author
    case _ => false
  }

  // --- Conflicts: acyclic --------------------------------------------------------------

  predicate CanConflictTransition(from: ConflictState, to: ConflictState) {
    match from
    case Detected => to == Confirmed || to == FalsePositive
    case Confirmed => to == ResolutionProposed
    case FalsePositive => to == Closed
    case ResolutionProposed => to == Resolved
    case Resolved => to == Closed
    case _ => false
  }

  /** How many moves a conflict can still make at most. */
  function Rank(s: ConflictState): nat {
    match s
    case Detected => 4
    case Confirmed => 3
    case ResolutionProposed => 2
    case Resolved => 1
    case FalsePositive => 1
    case _ => 0
  }

  lemma TransitionLowersRank(from: ConflictState, to: ConflictState)
    requires CanConflictTransition(from, to)
    ensures Rank(to) < Rank(from)
  {
  }

  predicate Settled(s: ConflictState) {
    s == Resolved || s == Closed
  }

  // --- Observations ----------------------------------------------------------------------

  /** "accepted" may be rejected or superseded, "rejected" may be accepted again; superseded is final. */
  predicate CanTransitionObservation(from: ObservationState, to: ObservationState) {
    (from == Usable && (to == Discarded || to == Superseded)) || (from == Discarded && to == Usable)
  }
}
