/**
 * The report-writing tool (report_tool.py): a chain of guards followed by
 * one chat-completion call, whose failure is turned into an error string.
 * The completion client is the oracle `chat`; whether the tool has a client
 * at all is the flag `hasClient`.
 */
module ReportTool {
  import opened Interfaces
  import opened PyText
  import opened PyJson

  const DefaultName := "Report Writing Tool"
  const DefaultDescription := "Takes input text (e.g., research findings, search results) and writes a concise, well-structured report based on it. Useful for summarizing information or drafting documents."
  const DefaultArgDescription := "The text content that needs to be summarized and formatted into a report."

  const NoClientMessage :=
    "Error: OpenAI client is not available. " + "Cannot generate report. " + "Please check API key setup."
  const EmptyInputMessage := "Error: Input text for the report is empty."
  const ReportSystemPrompt :=
    "You are a helpful assistant specialized in writing concise and informative reports. "
    + "Based on the provided text, generate a well-structured report. "
    + "Focus on clarity, key findings, and a professional tone. "
    + "Use markdown for formatting if appropriate (e.g., headings, bullet points)."

  function ReportUserPrompt(text: string): string {
    "Please generate a report based on the following text:\n\n---\n" + text + "\n---"
  }

  /** The two messages sent to the model for `text`. */
  function ReportRequest(text: string): seq<Message> {
    [Message(System, ReportSystemPrompt), Message(User, ReportUserPrompt(text))]
  }

  /** The completion call for `text`: the reply returned unchanged, or the
    * client's exception turned into an error string. */
  function Report(chat: Chat, text: string): (r: ToolOutcome)
    ensures r.Returned?
    ensures chat(ReportRequest(text)).Content? ==> r.text == chat(ReportRequest(text)).text
    ensures chat(ReportRequest(text)).Failure? ==>
      r == Returned("Error during report generation: " + chat(ReportRequest(text)).error)
  {
    match chat(ReportRequest(text))
    case Content(report) => Returned(report)
    case Failure(e) => Returned("Error during report generation: " + e)
  }

  /** The argument is a non-blank str: the only case in which the model is
    * asked for a report. */
  predicate AsksModel(hasClient: bool, argument: Sliceable) {
    hasClient && argument.JStr? && Strip(argument.s) != ""
  }

  /** `ReportWritingTool.run(argument)`. The client check comes before the
    * argument check; an empty or blank str is refused; a non-empty list has
    * no `strip` and raises; a failing completion call becomes an error string
    * and does not propagate; a successful one is returned unchanged. */
  function ReportRun(hasClient: bool, chat: Chat, argument: Sliceable): (r: ToolOutcome)
    ensures !hasClient ==> r == Returned(NoClientMessage)
    ensures hasClient && argument.JStr? && Strip(argument.s) == "" ==> r == Returned(EmptyInputMessage)
    ensures r.Raised? <==> hasClient && argument.JArr? && argument.items != []
    ensures AsksModel(hasClient, argument) ==> r == Report(chat, argument.s)
  {
    if !hasClient then Returned(NoClientMessage)
    else if !Truthy(argument) then Returned(EmptyInputMessage)
    else match argument
      case JArr(_) => Raised("'list' object has no attribute 'strip'")
      case JStr(text) =>
        if Strip(text) == "" then Returned(EmptyInputMessage)
        else Report(chat, text)
  }

  /** When the guards stop the tool, no model is consulted: the outcome is the
    * same whatever the client would have answered. */
  lemma GuardsMakeNoCall(hasClient: bool, chat1: Chat, chat2: Chat, argument: Sliceable)
    requires !AsksModel(hasClient, argument)
    ensures ReportRun(hasClient, chat1, argument) == ReportRun(hasClient, chat2, argument)
  {
  }

  /** A blank argument is refused whatever whitespace it is made of. */
  lemma BlankArgumentRefused(chat: Chat, text: string)
    requires AllSpace(text)
    ensures ReportRun(true, chat, JStr(text)) == Returned(EmptyInputMessage)
  {
    BlankStripsToEmpty(text);
  }
}
