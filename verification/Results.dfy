/**
 Executor, verifier, branch and parallel results, their consistency validators, and the
 deterministic combination of branch results (models/results.py, runtime/parallel.py).

 A list that the source always writes as `sorted({...})` is kept as the set it lists.
 An absent failure_reason and an empty one are the same to every check, and so are an
 absent and an empty external_handle; both are the empty string here.
 */
module Results {
  import opened Options
  import opened Graphs
  import Ordering

  datatype Outcome = Succeeded | Failed | Blocked | Errored | Cancelled

  datatype Error = Error(code: string, message: string)

  datatype BranchResult = BranchResult(
    branchId: Id, outcome: Outcome, completed: set<Id>, changedFiles: set<string>,
    failureDetails: seq<string>, error: Option<Error>)

  datatype ParallelResult = ParallelResult(
    parallelNodeId: Id, outcome: Outcome, branches: seq<BranchResult>, changedFiles: set<string>,
    failureDetails: seq<string>, error: Option<Error>)

  datatype Result =
    | Executed(outcome: Outcome, changedFiles: set<string>, failureReason: string, error: Option<Error>)
    | Awaiting(externalHandle: string)
    | Verified(outcome: Outcome, retryable: bool, failureDetails: seq<string>, error: Option<Error>)
    | Joined(parallel: ParallelResult)

  function Precedence(o: Outcome): nat {
    match o
    case Succeeded => 0
    case Cancelled => 1
    case Failed => 2
    case Blocked => 3
    case Errored => 4
  }

  ghost predicate ValidBranchResult(b: BranchResult) {
    && (b.outcome == Failed ==> b.failureDetails != [])
    && (b.error.Some? <==> b.outcome == Errored || b.outcome == Blocked)
  }

  ghost predicate ValidParallelResult(p: ParallelResult) {
    && p.branches != []
    && (forall i, j | 0 <= i < j < |p.branches| :: Ordering.Less(p.branches[i].branchId, p.branches[j].branchId))
    && (exists b | b in p.branches :: b.outcome == p.outcome)
    && (forall b | b in p.branches :: Precedence(b.outcome) <= Precedence(p.outcome))
    && (p.outcome == Failed ==> p.failureDetails != [])
    && (p.error.Some? <==> p.outcome == Errored || p.outcome == Blocked)
  }

  ghost predicate ValidResult(r: Result) {
    match r
    case Executed(o, _, reason, error) =>
      && o != Blocked
      && (o == Failed ==> reason != "")
      && (error.Some? <==> o == Errored)
    case Awaiting(_) => true
    case Verified(o, _, details, error) =>
      && o != Blocked
      && (o == Failed ==> details != [])
      && (error.Some? <==> o == Errored)
    case Joined(p) =>
      && ValidParallelResult(p)
      && (forall b | b in p.branches :: ValidBranchResult(b))
  }

  /** What an executor or verifier may answer for a node of this kind. */
  ghost predicate Fits(k: Kind, r: Result) {
    && ValidResult(r)
    && match k
       case Verifier(_) => r.Awaiting? || r.Verified?
       case Parallel(_, _) => r.Joined? || r.Executed?
       case Join(_) => r.Joined? || r.Executed?
       case _ => r.Executed?
  }

  function OutcomeOf(r: Result): Outcome
    requires !r.Awaiting?
  {
    match r
    case Executed(o, _, _, _) => o
    case Verified(o, _, _, _) => o
    case Joined(p) => p.outcome
  }

  function ErrorOf(r: Result): Option<Error> {
    match r
    case Executed(_, _, _, e) => e
    case Awaiting(_) => None
    case Verified(_, _, _, e) => e
    case Joined(p) => p.error
  }

  /** The wire value of a result's status, which route conditions compare. */
  function StatusText(r: Result): string {
    match r
    case Awaiting(_) => "pending"
    case Verified(Succeeded, _, _, _) => "passed"
    case _ => OutcomeText(OutcomeOf(r))
  }

  function OutcomeText(o: Outcome): string {
    match o
    case Succeeded => "succeeded"
    case Failed => "failed"
    case Blocked => "blocked"
    case Errored => "error"
    case Cancelled => "cancelled"
  }

  predicate ConditionMatches(c: RouteCondition, r: Result, attempt: nat) {
    var actual :=
      match c.field
      case ResultStatus => Text(StatusText(r))
      case ResultRetryable => Flag(r.Verified? && r.retryable)
      case AttemptNumber => Number(attempt);
    Satisfies(actual, c.test)
  }

  /** A traversal is a repair when its edge is bounded and the source failed. */
  predicate IsRepair(e: Edge, r: Result) {
    e.maxIterations.Some? && StatusText(r) == "failed"
  }
}
