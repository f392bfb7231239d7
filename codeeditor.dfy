/**
 * The code editor page: running the code sends the current language and code
 * to the execution endpoint and turns the reply into the console text.
 */
module CodeEditor {
  import opened JsText
  import Server

  /** The reply's fields as the page reads them (`undefined` is `None`), or a thrown error. */
  datatype EditorReply =
    | Received(output: Option<string>, stdout: Option<string>, stderr: Option<string>)
    | TransportError(message: string)

  /** `a || b` on possibly missing strings: the first one that is present and non-empty. */
  function Or(a: Option<string>, b: string): (r: string)
    ensures a.Some? && a.value != "" ==> r == a.value
    ensures (a.None? || a.value == "") ==> r == b
  {
    if a.Some? && a.value != "" then a.value else b
  }

  const ErrorHeading := "❌ Error:\n"
  const SuccessHeading := "✅ Success!\n\n"
  const FailureHeading := "❌ Error: "

  /** The console text the page shows after a run. */
  function ConsoleText(reply: EditorReply): string {
    match reply
    case TransportError(message) => FailureHeading + message
    case Received(output, stdout, stderr) =>
      var result := Or(output, Or(stdout, ""));
      var error := Or(stderr, "");
      if error != "" then ErrorHeading + error else SuccessHeading + result
  }

  /** Non-empty stderr wins, even over a non-empty output. */
  lemma StderrWins(output: Option<string>, stdout: Option<string>, e: string)
    requires e != ""
    ensures ConsoleText(Received(output, stdout, Some(e))) == ErrorHeading + e
  {
  }

  /** With stderr missing or empty the run is a success showing output, else stdout, else nothing. */
  lemma SuccessShowsResult(output: Option<string>, stdout: Option<string>, stderr: Option<string>)
    requires stderr.None? || stderr.value == ""
    ensures var t := ConsoleText(Received(output, stdout, stderr));
      && t[..|SuccessHeading|] == SuccessHeading
      && (output.Some? && output.value != "" ==> t == SuccessHeading + output.value)
      && ((output.None? || output.value == "") && stdout.Some? ==> t == SuccessHeading + stdout.value)
      && ((output.None? || output.value == "") && stdout.None? ==> t == SuccessHeading)
  {
  }

  /** The three outcomes are told apart by their headings. */
  lemma HeadingsDistinguishOutcomes(reply: EditorReply)
    ensures var t := ConsoleText(reply);
      && (reply.TransportError? ==> t == FailureHeading + reply.message)
      && (reply.Received? ==> |t| >= 2 && (t[0] == '✅' <==> Or(reply.stderr, "") == ""))
  {
  }

  /** What the page receives from the backend's `execute_code`: every field is present. */
  function FromServer(run: Server.CodeRun): EditorReply {
    Received(Some(run.output), Some(run.stdout), Some(run.stderr))
  }

  /** A failed call to the execution service shows up in the console as an error carrying its message. */
  lemma ServiceFailureIsShown(message: string)
    ensures ConsoleText(FromServer(Server.CodeRunResponse(Server.CallFailed(message)))) == ErrorHeading + "Error: " + message
  {
  }

  /** An unavailable service is reported as a successful run whose result is the notice. */
  lemma UnavailableLooksLikeSuccess(status: int, run: Option<Server.RunResult>)
    requires status != 200
    ensures ConsoleText(FromServer(Server.CodeRunResponse(Server.Answered(status, run)))) ==
      SuccessHeading + "Execution service unavailable"
  {
  }

  /** A program the service ran without stderr shows the success heading and its output, else its stdout. */
  lemma SuccessfulRunIsShown(run: Server.RunResult)
    requires run.stderr.None? || run.stderr.value == ""
    ensures ConsoleText(FromServer(Server.CodeRunResponse(Server.Answered(200, Some(run))))) ==
      SuccessHeading + (if run.output.Some? && run.output.value != "" then run.output.value else Server.OrEmpty(run.stdout))
  {
  }

  /** A program that wrote to stderr shows the error heading and exactly that text, whatever its output. */
  lemma FailedRunIsShown(run: Server.RunResult)
    requires run.stderr.Some? && run.stderr.value != ""
    ensures ConsoleText(FromServer(Server.CodeRunResponse(Server.Answered(200, Some(run))))) ==
      ErrorHeading + run.stderr.value
  {
  }

  datatype Request = Request(language: string, code: string)

  class EditorPage {
    var code: string
    var language: string
    var output: string
    var running: bool
    /** Requests sent to the execution endpoint, each with whether `running` was set when it went out. */
    var requests: seq<(Request, bool)>

    constructor ()
      ensures code == "# Write your Python code here\ndef solve():\n    # Your solution\n    pass\n\nsolve()"
      ensures language == "python" && output == "" && !running && requests == []
    {
      code := "# Write your Python code here\ndef solve():\n    # Your solution\n    pass\n\nsolve()";
      language := "python";
      output := "";
      running := false;
      requests := [];
    }

    /** `handleRunCode`: one request with the current language and code, sent while running; then the console text, and running is over. */
    method RunCode(reply: EditorReply)
      modifies this`output, this`running, this`requests
      ensures requests == old(requests) + [(Request(language, code), true)]
      ensures output == ConsoleText(reply)
      ensures !running
    {
      running := true;
      requests := requests + [(Request(language, code), running)];
      match reply {
        case TransportError(message) =>
          output := FailureHeading + message;
        case Received(out, stdout, stderr) =>
          var result := Or(out, Or(stdout, ""));
          var error := Or(stderr, "");
          if error != "" {
            output := ErrorHeading + error;
          } else {
            output := SuccessHeading + result;
          }
      }
      running := false;
    }
  }
}
