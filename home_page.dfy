/** The home page of the front end (`HomePageComponent`): it starts an
    analysis of a file or a text, holds the result or the error that comes
    back, and decides which section is on screen. Starting a request and
    handling its reply are separate steps. */
module HomePage {
  import opened Wrappers
  import opened Domain
  import Responses
  import Controller

  /** The JSON body of an analysis response; any field may be missing. */
  datatype AnalysisResponse = AnalysisResponse(success: bool, analysis: Option<ReportSummary>,
                                               reportText: Option<string>, error: Option<string>)

  /** How a request ended, as `HttpClient` reports it: the body of a 2xx
      reply goes to `next`; a transport failure and every other status go
      to `error`, whose body the page does not read. */
  datatype Reply = Delivered(response: AnalysisResponse) | Failed

  /** The split `HttpClient` makes on the status of a reply. */
  function Classify(status: int, body: AnalysisResponse): (r: Reply)
    ensures r.Delivered? <==> 200 <= status < 300
    ensures r.Delivered? ==> r.response == body
  {
    if 200 <= status < 300 then Delivered(body) else Failed
  }

  /** Against the shipped controller, which answers every failed analysis
      with 400, a body reaches `next` exactly when the analysis succeeded:
      the controller's error text is never shown, and every failure reads as
      the connection message. */
  lemma BackendFailuresReachErrorCallback(o: Responses.AnalysisOutcome, body: AnalysisResponse)
    ensures Classify(Controller.AnalysisStatus(o), body).Delivered? <==> o.Analysed?
    ensures o.AnalysisError? ==> Classify(Controller.AnalysisStatus(o), body) == Failed
  {
  }

  const AnalysisFailedMessage: string := "Analysis failed. Please try again."
  const ConnectMessage: string :=
    "Could not connect to the server. Make sure the backend is running on port 8080."

  /** `response.error || default`: a missing or empty error gives the
      default. */
  function FailureText(error: Option<string>): (m: string)
    ensures m != []
    ensures error.Some? && error.value != [] ==> m == error.value
    ensures error.None? || error.value == [] ==> m == AnalysisFailedMessage
  {
    if error.Some? && error.value != [] then error.value else AnalysisFailedMessage
  }

  /** A JavaScript string is truthy when it is neither null nor empty; a
      truthy error is the one `FailureText` shows. */
  function Truthy(s: Option<string>): (t: bool)
    ensures s.None? || s == Some("") ==> !t
    ensures t ==> FailureText(s) == s.value
  {
    s.Some? && s.value != []
  }

  /** The four sections of the template and when each is shown. */
  function ShowsUpload(isLoading: bool, result: Option<ReportSummary>): (shown: bool)
    ensures shown ==> !isLoading
    ensures !isLoading ==> (shown <==> result.None?)
  {
    !isLoading && result.None?
  }

  function ShowsLoading(isLoading: bool): (shown: bool)
    ensures shown == isLoading
  {
    isLoading
  }

  function ShowsResults(isLoading: bool, result: Option<ReportSummary>): (shown: bool)
    ensures shown ==> result.Some? && !isLoading
    ensures !isLoading && result.Some? ==> shown
  {
    result.Some? && !isLoading
  }

  function ShowsError(isLoading: bool, error: Option<string>): (shown: bool)
    ensures shown ==> !isLoading && error.Some? && FailureText(error) == error.value
    ensures error.None? || error == Some("") ==> !shown
  {
    Truthy(error) && !isLoading
  }

  /** Exactly one of the upload form, the loading animation and the results
      is on screen; an error card can only sit beside the form or the
      results. */
  lemma OneMainSection(isLoading: bool, result: Option<ReportSummary>, error: Option<string>)
    ensures ShowsUpload(isLoading, result) || ShowsLoading(isLoading) || ShowsResults(isLoading, result)
    ensures !(ShowsUpload(isLoading, result) && ShowsLoading(isLoading))
    ensures !(ShowsUpload(isLoading, result) && ShowsResults(isLoading, result))
    ensures !(ShowsLoading(isLoading) && ShowsResults(isLoading, result))
    ensures ShowsError(isLoading, error) ==> !ShowsLoading(isLoading)
  {
  }

  class HomePageComponent {
    var isLoading: bool
    var analysisResult: Option<ReportSummary>
    var currentReportText: Option<string>
    var error: Option<string>

    constructor ()
      ensures !isLoading && analysisResult.None? && currentReportText == Some([]) && error.None?
    {
      isLoading := false;
      analysisResult := None;
      currentReportText := Some([]);
      error := None;
    }

    /** `onAnalyzeFile`, up to the request: the text shown so far is kept
      until the reply brings the extracted one. */
    method OnAnalyzeFile()
      modifies this
      ensures isLoading && error.None?
      ensures analysisResult == old(analysisResult) && currentReportText == old(currentReportText)
    {
      isLoading := true;
      error := None;
    }

    /** `onAnalyzeText`, up to the request: the submitted text is shown at
      once. */
    method OnAnalyzeText(text: string)
      modifies this
      ensures isLoading && error.None? && currentReportText == Some(text)
      ensures analysisResult == old(analysisResult)
    {
      isLoading := true;
      error := None;
      currentReportText := Some(text);
    }

    /** The reply of either request: loading ends; a success replaces the
      result and the text; a failure sets the error and keeps the
      previous result. */
    method Receive(reply: Reply)
      modifies this
      ensures !isLoading
      ensures reply.Delivered? && reply.response.success ==>
                && analysisResult == reply.response.analysis
                && currentReportText == reply.response.reportText
                && error == old(error)
      ensures reply.Delivered? && !reply.response.success ==>
                && error == Some(FailureText(reply.response.error))
                && analysisResult == old(analysisResult) && currentReportText == old(currentReportText)
      ensures reply.Failed? ==>
                && error == Some(ConnectMessage)
                && analysisResult == old(analysisResult) && currentReportText == old(currentReportText)
    {
      isLoading := false;
      match reply
      case Delivered(response) =>
        if response.success {
          analysisResult := response.analysis;
          currentReportText := response.reportText;
        } else {
          error := Some(FailureText(response.error));
        }
      case Failed =>
        error := Some(ConnectMessage);
    }

    /** `resetAnalysis`: back to the form; the loading flag is not touched. */
    method ResetAnalysis()
      modifies this
      ensures analysisResult.None? && currentReportText == Some([]) && error.None?
      ensures isLoading == old(isLoading)
    {
      analysisResult := None;
      currentReportText := Some([]);
      error := None;
    }

    /** The error card's "Try Again" button. */
    method DismissError()
      modifies this
      ensures error.None?
      ensures isLoading == old(isLoading) && analysisResult == old(analysisResult)
      ensures currentReportText == old(currentReportText)
    {
      error := None;
    }
  }

  /** A failed reply always leaves an error card on screen, whatever the
      body said. */
  lemma FailureShowsError(response: AnalysisResponse)
    requires !response.success
    ensures ShowsError(false, Some(FailureText(response.error)))
  {
  }
}
