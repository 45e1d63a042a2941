/** The statuses of runs (workspacehelper/tfc_run.go). */
module Runs {
  /** `NoStatus` is the empty text; `Active` stands for every text that is not one of the other five. */
  datatype RunStatus = NoStatus | Applied | PlannedAndFinished | Errored | Canceled | Discarded | Active(text: string)

  predicate IsPending(status: RunStatus) {
    match status
    case Applied => false
    case PlannedAndFinished => false
    case Errored => false
    case Canceled => false
    case Discarded => false
    case NoStatus => false
    case Active(_) => true
  }

  predicate IsError(status: RunStatus) { status == Errored }

  /** What the server may turn a status into: a final one stays as it is. */
  predicate MayBecome(before: RunStatus, after: RunStatus) {
    after != NoStatus && (!IsPending(before) ==> after == before)
  }

  /****** The texts of the statuses ******/

  /** The status that a text stands for. */
  function StatusOf(text: string): (status: RunStatus)
    ensures StatusText(status) == text
  {
    if text == "" then NoStatus
    else if text == "applied" then Applied
    else if text == "planned_and_finished" then PlannedAndFinished
    else if text == "errored" then Errored
    else if text == "canceled" then Canceled
    else if text == "discarded" then Discarded
    else Active(text)
  }

  function StatusText(status: RunStatus): string {
    match status
    case NoStatus => ""
    case Applied => "applied"
    case PlannedAndFinished => "planned_and_finished"
    case Errored => "errored"
    case Canceled => "canceled"
    case Discarded => "discarded"
    case Active(text) => text
  }

  const FINAL: set<string> := {"applied", "planned_and_finished", "errored", "canceled", "discarded"}

  /** A run is under way unless its status is one of five final texts, or empty; and of those one tells of an error. */
  lemma FinalTexts(text: string)
    ensures IsPending(StatusOf(text)) <==> text != "" && text !in FINAL
    ensures IsError(StatusOf(text)) <==> text == "errored"
  {
  }
}
