/** The `/status` route: it polls the bot once more on its own and renders
    the outcome of that poll. It never reads the tracker's `isActive`. */
module Status {
  import opened Events

  /** The two values of the `StatusCode` table of the `/status` handler. */
  datatype StatusCode = Okay | Error

  /** The string each status code renders as. */
  function CodeText(c: StatusCode): (t: string)
    ensures t == "okay" <==> c == Okay
    ensures t == "error" <==> c == Error
  {
    match c
    case Okay => "okay"
    case Error => "error"
  }

  /** Reads a rendered status code back. */
  function CodeOf(t: string): (c: Option<StatusCode>)
  {
    if t == "okay" then Some(Okay)
    else if t == "error" then Some(Error)
    else None
  }

  lemma CodeTextRoundTrip(c: StatusCode)
    ensures CodeOf(CodeText(c)) == Some(c)
  {
  }

  /** The view model handed to the status template. */
  datatype Page = Page(botName: string, message: string, statusCode: string)

  /** The page for one fresh poll of the bot's status API. */
  function Render(botName: string, pollSucceeded: bool): (p: Page)
    ensures p.botName == botName
    ensures p.statusCode == "okay" <==> pollSucceeded
    ensures p.statusCode == "error" <==> !pollSucceeded
    ensures p.message == "Gud!" <==> pollSucceeded
    ensures p.message == "Bad!" <==> !pollSucceeded
  {
    if pollSucceeded then Page(botName, "Gud!", CodeText(Okay))
    else Page(botName, "Bad!", CodeText(Error))
  }

  /** The poll outcome a rendered page reports, read off its status code. */
  function ReportedOutcome(p: Page): (ok: Option<bool>)
  {
    match CodeOf(p.statusCode)
    case Some(c) => Some(c == Okay)
    case None => None
  }

  /** Every page the route renders carries one of the two status codes, and
      that code gives back the poll outcome it was rendered from. */
  lemma RenderReportsOutcome(botName: string, pollSucceeded: bool)
    ensures ReportedOutcome(Render(botName, pollSucceeded)) == Some(pollSucceeded)
    ensures CodeOf(Render(botName, pollSucceeded).statusCode).Some?
  {
  }
}
