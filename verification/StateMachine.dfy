/** Subscription status transitions. */
module StateMachine {
  import opened Base

  datatype Status = Active | Paused | Cancelled | InsufficientFunds | GracePeriod | Expired | Archived

  predicate CanTransition(from: Status, to: Status) {
    from == to ||
    match from
    case Active => to in {Paused, Cancelled, InsufficientFunds, GracePeriod, Expired}
    case Paused => to in {Active, Cancelled, Expired}
    case InsufficientFunds => to in {Active, Cancelled, Expired, Paused}
    case GracePeriod => to in {Active, Cancelled, InsufficientFunds, Expired}
    case Cancelled => to == Archived
    case Expired => to == Archived
    case Archived => false
  }

  function TransitionTo(current: Status, next: Status): Result<Status> {
    if CanTransition(current, next) then Ok(next) else Err(InvalidStatusTransition)
  }

  /** The targets the contract lists for tooling, excluding the status itself. */
  function AllowedTransitions(from: Status): seq<Status> {
    match from
    case Active => [Paused, Cancelled, InsufficientFunds, GracePeriod, Expired]
    case Paused => [Active, Cancelled, Expired]
    case Cancelled => [Archived]
    case InsufficientFunds => [Active, Paused, Cancelled, Expired]
    case GracePeriod => [Active, Cancelled, InsufficientFunds, Expired]
    case Expired => [Archived]
    case Archived => []
  }

  predicate Terminal(s: Status) { s in {Cancelled, Expired, Archived} }

  /** A path of permitted transitions. */
  ghost predicate Path(p: seq<Status>) {
    p != [] && forall i :: 0 <= i < |p| - 1 ==> CanTransition(p[i], p[i + 1])
  }

  /** The guard and the published table agree in both directions. */
  lemma GuardMatchesTable(from: Status, to: Status)
    ensures CanTransition(from, to) <==> from == to || to in AllowedTransitions(from)
  {
    var t := AllowedTransitions(from);
    match from {
      case Active => assert t[0] == Paused && t[1] == Cancelled && t[2] == InsufficientFunds && t[3] == GracePeriod && t[4] == Expired;
      case Paused => assert t[0] == Active && t[1] == Cancelled && t[2] == Expired;
      case Cancelled => assert t[0] == Archived;
      case InsufficientFunds => assert t[0] == Active && t[1] == Paused && t[2] == Cancelled && t[3] == Expired;
      case GracePeriod => assert t[0] == Active && t[1] == Cancelled && t[2] == InsufficientFunds && t[3] == Expired;
      case Expired => assert t[0] == Archived;
      case Archived =>
    }
  }

  /** No path of permitted transitions leads out of the terminal states. */
  lemma {:induction false} TerminalIsFinal(p: seq<Status>, i: nat)
    requires Path(p) && i < |p| && Terminal(p[0])
    ensures Terminal(p[i]) && (p[0] == Archived ==> p[i] == Archived)
    ensures p[0] == Cancelled ==> p[i] in {Cancelled, Archived}
  {
    if i > 0 {
      TerminalIsFinal(p, i - 1);
      assert CanTransition(p[i - 1], p[i - 1 + 1]);
    }
  }
}
