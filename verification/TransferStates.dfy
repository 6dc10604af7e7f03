/** The transfer state machine. */
module TransferStates {
  import opened Wrappers

  datatype State = NoTransfer | Proposed | Accepted | Committed | Settled | Rejected | Aborted | Expired

  datatype Event = Propose | Accept | Reject | Commit | Receipt | Abort | Expire

  /** The table of allowed moves; None for an invalid pair. */
  function Transition(s: State, e: Event): Option<State> {
    match (s, e)
    case (NoTransfer, Propose) => Some(Proposed)
    case (Proposed, Accept) => Some(Accepted)
    case (Proposed, Reject) => Some(Rejected)
    case (Proposed, Abort) => Some(Aborted)
    case (Proposed, Expire) => Some(Expired)
    case (Accepted, Commit) => Some(Committed)
    case (Accepted, Abort) => Some(Aborted)
    case (Accepted, Expire) => Some(Expired)
    case (Committed, Receipt) => Some(Settled)
    case (Committed, Commit) => Some(Committed)
    case (Settled, Commit) => Some(Settled)
    case _ => None
  }

  /** Events applied in order; an invalid one leaves the state alone. */
  function After(s: State, es: seq<Event>): State
    decreases |es|
  {
    if es == [] then s
    else After(match Transition(s, es[0]) case Some(t) => t case None => s, es[1..])
  }

  predicate Dead(s: State) { s.Rejected? || s.Aborted? || s.Expired? }

  /** A transfer whose payer has paid. */
  predicate Spent(s: State) { s.Committed? || s.Settled? }

  /** Once dead a transfer stays dead, and once committed it can only settle: no run of events
      leads from a released transfer to a committed one or back. */
  lemma {:induction false} CommitIsFinal(s: State, es: seq<Event>)
    ensures Dead(s) ==> After(s, es) == s
    ensures Spent(s) ==> Spent(After(s, es))
    decreases |es|
  {
    if es != [] {
      CommitIsFinal(match Transition(s, es[0]) case Some(t) => t case None => s, es[1..]);
    }
  }
}
