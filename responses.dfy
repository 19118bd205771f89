/** The response bodies of the REST endpoints (the `dto` package): mutable
    beans that the static factories fill through their setters. What a
    response says is summarised as an outcome value. */
module Responses {
  import opened Wrappers
  import opened Domain

  /** What a `ReportAnalysisResponse` reports: an analysis together with the
      text it was made from, or an error message. */
  datatype AnalysisOutcome =
    | Analysed(analysis: Option<ReportSummary>, reportText: Option<string>)
    | AnalysisError(error: Option<string>)

  /** `ReportAnalysisResponse`. */
  class ReportAnalysisResponse {
    var success: bool
    var analysis: Option<ReportSummary>
    var reportText: Option<string>
    var error: Option<string>

    /** The no-argument constructor: every field at its Java default. */
    constructor ()
      ensures !success && analysis.None? && reportText.None? && error.None?
    {
      success := false;
      analysis := None;
      reportText := None;
      error := None;
    }

    /** The object reports exactly the outcome `o`: a success carries the
        analysis and the text and no error; an error carries only its
        message. */
    predicate Represents(o: AnalysisOutcome)
      reads this
    {
      match o
      case Analysed(a, t) => success && analysis == a && reportText == t && error.None?
      case AnalysisError(e) => !success && error == e && analysis.None? && reportText.None?
    }

    method SetSuccess(value: bool)
      modifies this
      ensures success == value
      ensures analysis == old(analysis) && reportText == old(reportText) && error == old(error)
    {
      success := value;
    }

    method SetAnalysis(value: Option<ReportSummary>)
      modifies this
      ensures analysis == value
      ensures success == old(success) && reportText == old(reportText) && error == old(error)
    {
      analysis := value;
    }

    method SetReportText(value: Option<string>)
      modifies this
      ensures reportText == value
      ensures success == old(success) && analysis == old(analysis) && error == old(error)
    {
      reportText := value;
    }

    method SetError(value: Option<string>)
      modifies this
      ensures error == value
      ensures success == old(success) && analysis == old(analysis) && reportText == old(reportText)
    {
      error := value;
    }

    /** `ReportAnalysisResponse.success(analysis, reportText)`. */
    static method Success(a: Option<ReportSummary>, t: Option<string>) returns (r: ReportAnalysisResponse)
      ensures fresh(r) && r.Represents(Analysed(a, t))
    {
      r := new ReportAnalysisResponse();
      r.SetSuccess(true);
      r.SetAnalysis(a);
      r.SetReportText(t);
    }

    /** `ReportAnalysisResponse.error(error)`. */
    static method Error(e: Option<string>) returns (r: ReportAnalysisResponse)
      ensures fresh(r) && r.Represents(AnalysisError(e))
    {
      r := new ReportAnalysisResponse();
      r.SetSuccess(false);
      r.SetError(e);
    }

    /** A filled response for outcome `o`, by the factory that fits it. */
    static method Of(o: AnalysisOutcome) returns (r: ReportAnalysisResponse)
      ensures fresh(r) && r.Represents(o)
    {
      match o
      case Analysed(a, t) => r := Success(a, t);
      case AnalysisError(e) => r := Error(e);
    }
  }

  /** A response object reports one outcome only, and it is a success exactly
      when that outcome is an analysis. */
  lemma AnalysisOutcomeUnique(r: ReportAnalysisResponse, o1: AnalysisOutcome, o2: AnalysisOutcome)
    requires r.Represents(o1) && r.Represents(o2)
    ensures o1 == o2
    ensures r.success <==> o1.Analysed?
  {
  }

  /** What a `ChatResponse` reports: an answer (which may be null) or an
      error message. */
  datatype ChatOutcome =
    | Answered(answer: Option<string>)
    | ChatError(error: Option<string>)

  /** `ChatResponse`. */
  class ChatResponse {
    var success: bool
    var answer: Option<string>
    var error: Option<string>

    constructor ()
      ensures !success && answer.None? && error.None?
    {
      success := false;
      answer := None;
      error := None;
    }

    predicate Represents(o: ChatOutcome)
      reads this
    {
      match o
      case Answered(a) => success && answer == a && error.None?
      case ChatError(e) => !success && error == e && answer.None?
    }

    method SetSuccess(value: bool)
      modifies this
      ensures success == value && answer == old(answer) && error == old(error)
    {
      success := value;
    }

    method SetAnswer(value: Option<string>)
      modifies this
      ensures answer == value && success == old(success) && error == old(error)
    {
      answer := value;
    }

    method SetError(value: Option<string>)
      modifies this
      ensures error == value && success == old(success) && answer == old(answer)
    {
      error := value;
    }

    /** `ChatResponse.success(answer)`. */
    static method Success(a: Option<string>) returns (r: ChatResponse)
      ensures fresh(r) && r.Represents(Answered(a))
    {
      r := new ChatResponse();
      r.SetSuccess(true);
      r.SetAnswer(a);
    }

    /** `ChatResponse.error(error)`. */
    static method Error(e: Option<string>) returns (r: ChatResponse)
      ensures fresh(r) && r.Represents(ChatError(e))
    {
      r := new ChatResponse();
      r.SetSuccess(false);
      r.SetError(e);
    }

    /** A filled response for outcome `o`, by the factory that fits it. */
    static method Of(o: ChatOutcome) returns (r: ChatResponse)
      ensures fresh(r) && r.Represents(o)
    {
      match o
      case Answered(a) => r := Success(a);
      case ChatError(e) => r := Error(e);
    }
  }

  lemma ChatOutcomeUnique(r: ChatResponse, o1: ChatOutcome, o2: ChatOutcome)
    requires r.Represents(o1) && r.Represents(o2)
    ensures o1 == o2
    ensures r.success <==> o1.Answered?
  {
  }
}
