/** The order status graph. The five worker statuses are the rows of the two
    tables; the four POS statuses can only enter a row through the PATCH endpoints
    and have no row in either table. */
module OrderStateMachine {
  datatype Status =
    | Queued | Saved | SentToPos | Completed | Failed
    | Accepted | Cooking | Done | Cancelled

  datatype Option<+T> = None | Some(value: T)

  function AllowedTransitions(current: Status): Option<seq<Status>> {
    match current
    case Queued => Some([Saved, Failed])
    case Saved => Some([SentToPos, Failed])
    case SentToPos => Some([Completed])
    case Completed => Some([])
    case Failed => Some([])
    case _ => None
  }

  function AdminRedriveTransitions(current: Status): Option<seq<Status>> {
    match current
    case Failed => Some([Queued])
    case Queued | Saved | SentToPos | Completed => Some([])
    case _ => None
  }

  /** NoTableRow is the TypeError the lookup of a POS status ends in. */
  datatype Verdict = Fine | InvalidTransition | NoTableRow

  function Validate(current: Status, next: Status, isAdminRedrive: bool): Verdict {
    match if isAdminRedrive then AdminRedriveTransitions(current) else AllowedTransitions(current)
    case None => NoTableRow
    case Some(allowed) => if next in allowed then Fine else InvalidTransition
  }

  predicate Allowed(current: Status, next: Status) {
    Validate(current, next, false) == Fine
  }

  predicate IsTerminal(status: Status) {
    status == Completed || status == Failed
  }

  /** The statuses FAILED may follow. */
  predicate Early(status: Status) {
    status == Queued || status == Saved
  }

  /** The statuses a failure report can deal with: FAILED may follow, or nothing has to be
      done any more. */
  predicate Reportable(status: Status) {
    Early(status) || IsTerminal(status)
  }

  /** A bound on how many transitions can lead into a status. */
  function Rank(status: Status): nat {
    match status
    case Queued => 0
    case Saved => 1
    case SentToPos => 2
    case Failed => 2
    case _ => 3
  }

  /** A path whose edges come from the normal table or from the redrive table. */
  predicate IsPath(p: seq<Status>) {
    |p| > 0 &&
    forall i {:trigger p[i + 1]} :: 0 <= i < |p| - 1 ==> Allowed(p[i], p[i + 1]) || Validate(p[i], p[i + 1], true) == Fine
  }

  function Redrives(p: seq<Status>): nat {
    if |p| < 2 then 0
    else Redrives(p[..|p| - 1]) + if Validate(p[|p| - 2], p[|p| - 1], true) == Fine then 1 else 0
  }

  /** A terminal status is exactly a worker status that no normal transition leaves. */
  lemma TerminalIffAbsorbing(status: Status)
    ensures IsTerminal(status) <==> AllowedTransitions(status).Some? && forall next :: !Allowed(status, next)
  {
    if !IsTerminal(status) && AllowedTransitions(status).Some? {
      assert Allowed(status, AllowedTransitions(status).value[0]);
    }
  }

  lemma {:induction false} PathBound(p: seq<Status>)
    requires IsPath(p)
    ensures |p| - 1 <= 3 * Redrives(p) + Rank(p[|p| - 1]) <= 3 * Redrives(p) + 3
  {
    if |p| >= 2 {
      var front := p[..|p| - 1];
      assert forall i {:trigger front[i + 1]} :: 0 <= i < |front| - 1 ==> front[i] == p[i] && front[i + 1] == p[i + 1];
      PathBound(front);
      var i := |p| - 2;
      assert p[i + 1] == p[|p| - 1];
    }
  }

  /** The edges of the two tables, all of them. */
  lemma Edges(current: Status, next: Status)
    ensures Allowed(current, next) <==>
            (current, next) in {(Queued, Saved), (Queued, Failed), (Saved, SentToPos), (Saved, Failed), (SentToPos, Completed)}
    ensures Validate(current, next, true) == Fine <==> current == Failed && next == Queued
  {
  }

  lemma FailsIffEarly(status: Status)
    ensures Allowed(status, Failed) <==> Early(status)
  {
  }
}
