/** The values exchanged between the test runner, the reporter and the Jira
    client: test outcomes, transitions, client calls and the reporter's errors. */
module JiraTypes {
  import opened Wrappers

  /** The two outcomes a test result can carry. */
  datatype Status = Passed | Failed

  /** One completed test as the runner reports it. */
  datatype TestResult = TestResult(title: string, status: Status)

  /** A workflow transition as Jira lists it for an issue. */
  datatype Transition = Transition(id: string, name: string)

  /** The transition names the reporter knows; also the payload of
      TRANSITION_NOT_FOUND, whose schema admits exactly these two choices. */
  datatype JiraTransition = InProgress | Done {
    function Name(): string {
      match this
      case InProgress => InProgressName
      case Done => DoneName
    }
  }

  const InProgressName: string := "In Progress"
  const DoneName: string := "Done"

  /** One call the reporter makes on its Jira client. The issue id is `None`
      when the title is not in the test map (JavaScript `undefined`). */
  datatype Call =
    | ListTransitions(issueId: Option<string>)
    | TransitionIssue(issueId: Option<string>, transition: Transition)

  /** What the client's `listTransitions` promise settles to. */
  datatype ListReply = Listed(transitions: seq<Transition>) | ListRejected(reason: string)

  /** The client's answer to `transitionIssue`: `Some(reason)` when the
      promise rejects, `None` when it resolves. */
  type Applier = (Option<string>, Transition) -> Option<string>

  /** Everything the reporter can throw. Client rejections are passed on
      unchanged, so they carry only the client's own reason. */
  datatype ReporterError =
    | MissingParameters(parameters: seq<string>)
    | TransitionNotFound(transition: JiraTransition)
    | ClientFailure(reason: string)
}
