/** Run statuses, terminal reasons, and the triple a FinalReport accepts (models/reports.py). */
module Reports {
  import opened Options
  import opened Results

  datatype TerminalStatus =
    | RunSucceeded | RunFailed | RunErrored | RunInterrupted | RunCancelled | RunRejected

  datatype TerminalReason =
    | Completed | AcceptanceFailed | ExecutionError | HumanInterrupted | HumanCancelled
    | HumanRejected | BudgetExhausted | AuthorizationBlocked | ContractConflict

  datatype RunStatus = Running | PauseRequested | Quiescing | Paused | Terminal(status: TerminalStatus)

  datatype Ending = Ending(status: TerminalStatus, reason: TerminalReason, error: Option<Error>)

  function AllowedReasons(s: TerminalStatus): set<TerminalReason> {
    match s
    case RunSucceeded => {Completed}
    case RunFailed => {AcceptanceFailed, BudgetExhausted, AuthorizationBlocked, ContractConflict}
    case RunErrored => {ExecutionError}
    case RunInterrupted => {HumanInterrupted}
    case RunCancelled => {HumanCancelled}
    case RunRejected => {HumanRejected}
  }

  /** FinalReport.status_reason_and_error_are_consistent. */
  predicate IsReportable(e: Ending) {
    && e.reason in AllowedReasons(e.status)
    && (e.error.Some? <==> e.status == RunErrored)
  }
}
