/** The shared vocabulary of the coordinator protocol (constants.js). */
module Constants {

  /** Status of an ownership record. */
  datatype Status = Running | Success | Failed

  function StatusText(s: Status): string
  {
    match s
    case Running => "running"
    case Success => "success"
    case Failed => "failed"
  }

  /** The error codes the coordinator answers with. */
  datatype ErrorCode =
    | InvalidRequest
    | InvalidTestId
    | InvalidRequestAction
    | InvalidRunnerOwnership
    | AlreadyRunning

  function ErrorText(e: ErrorCode): string
  {
    match e
    case InvalidRequest => "INVALID_REQUEST"
    case InvalidTestId => "INVALID_TEST_ID"
    case InvalidRequestAction => "INVALID_REQUEST_ACTION"
    case InvalidRunnerOwnership => "INVALID_RUNNER_OWNERSHIP"
    case AlreadyRunning => "ALREADY_RUNNING"
  }

  /** Separator between the titles of a test path in coordinator test ids. */
  const TestPathSeparator: string := ">>>"

  /**
   How the coordinator reads the `status` query parameter of a result report:
   anything but the text "success" (including a missing one) is a failure.
   */
  function ReportedStatus(status: string): (st: Status)
    ensures st != Running
    ensures st == Success <==> status == StatusText(Success)
  {
    if status == "success" then Success else Failed
  }
}
