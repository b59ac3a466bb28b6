/** The canonical chat events that a workspace adapter publishes and Control consumes. */
module ChatEvents {
  import opened Text

  datatype TurnState = NeedsInput | Completed | Cancelled | Failed

  datatype WorkState = Running | Finished

  datatype ToolState = ToolRunning | ToolCompleted | ToolFailed

  datatype ApprovalState = ApprovalRequired | Approved | Executing | Succeeded | Denied | ApprovalFailed | Expired

  /** A link; `http` says that it parses as an HTTP or HTTPS URL without credentials. */
  datatype Link = Link(text: string, http: bool)

  datatype Body =
    | TurnStart(messageId: string)
    | TextDelta(textId: string, delta: string)
    | Progress(activityId: string, caption: string, workState: WorkState)
    | Tool(toolCallId: string, toolName: string, toolState: ToolState, toolSummary: Option<string>,
           progressLabel: Option<string>)
    | Plan(title: string, planSummary: Option<string>, planState: WorkState)
    | ProviderSummary(summary: string, provider: Option<string>)
    | WebAction(action: string, webLabel: string, webUrl: Option<Link>)
    | Source(sourceTitle: string, url: Link)
    | Approval(approvalId: string, operationId: string, approvalState: ApprovalState, approvalSummary: string)
    | Artifact(artifactId: string, filename: string, revisionId: Option<string>)
    | ComputerAction(actionId: string, actionLabel: string, actionState: ToolState)
    | Notice(notice: string)
    | ErrorReport(code: string, report: string)
    | TurnFinish(state: TurnState, message: Option<string>, vendorSessionId: Option<string>)

  datatype Event = Event(sequence: nat, sessionId: string, turnId: string, body: Body)

  function DeltaOf(e: Event): string {
    if e.body.TextDelta? then e.body.delta else ""
  }

  /** All message text of a log, in order. */
  function LogText(log: seq<Event>): string {
    if log == [] then "" else LogText(log[..|log| - 1]) + DeltaOf(log[|log| - 1])
  }

  lemma {:induction false} LogTextSnoc(log: seq<Event>, e: Event)
    ensures LogText(log + [e]) == LogText(log) + DeltaOf(e)
  {
    assert (log + [e])[..|log|] == log;
  }
}
