/** The REST endpoints (`ReportController`): each one hands its request to the
    orchestrator under the provider named in the query, defaulting to
    "ollama", and chooses the HTTP status from what came back. A reply is
    described by its status and the outcome its body reports. */
module Controller {
  import opened Wrappers
  import opened Strings
  import opened Domain
  import opened AIService
  import opened Responses
  import opened PdfParser
  import opened Reports

  const OkStatus: int := 200
  const BadRequest: int := 400
  const InternalServerError: int := 500

  /** The `defaultValue` of the `provider` query parameter. */
  const ParamDefault: string := "ollama"
  const EmptyFileMessage: string := "File is empty"
  const ChatFailureLead: string := "Failed to process your question: "

  /** The provider name an endpoint passes on: the query parameter, or the
      default when it is missing or empty. It is never empty, so the
      orchestrator's own default is never used from here. */
  function EffectiveProvider(param: Option<string>): (p: string)
    ensures p != []
    ensures param.Some? && param.value != [] ==> p == param.value
    ensures param.None? || param.value == [] ==> p == ParamDefault
  {
    if param.None? || param.value == [] then ParamDefault else param.value
  }

  /** A missing parameter means the "ollama" entry: the lookup goes to that
      key and, when nothing is registered there, fails naming it. */
  lemma MissingParamLooksUpOllama(registry: map<string, Provider>, param: Option<string>)
    requires param.None? || param.value == []
    ensures ParamDefault in registry ==>
              Resolve(registry, Some(EffectiveProvider(param))) == Ok(Some(registry[ParamDefault]))
    ensures ParamDefault !in registry ==>
              Resolve(registry, Some(EffectiveProvider(param)))
              == Err(Exception(Some(UnsupportedProviderLead + ParamDefault)))
  {
    assert ToLower(ParamDefault) == ParamDefault;
  }

  /** The status of an analysis reply: 200 exactly for a success. */
  function AnalysisStatus(o: AnalysisOutcome): (s: int)
    ensures s == OkStatus <==> o.Analysed?
    ensures s == BadRequest <==> o.AnalysisError?
  {
    if o.Analysed? then OkStatus else BadRequest
  }

  datatype AnalysisReply = AnalysisReply(status: int, outcome: AnalysisOutcome)

  /** `POST /reports/analyze`: an empty upload is refused before the
      orchestrator sees it; any other upload gets the orchestrator's outcome. */
  function AnalyzeFileReply(registry: map<string, Provider>, file: MultipartFile, param: Option<string>,
                            pdf: PdfRead, ocr: Result<string, Exception>)
    : (r: AnalysisReply)
    ensures file.isEmpty ==> r == AnalysisReply(BadRequest, AnalysisError(Some(EmptyFileMessage)))
    ensures !file.isEmpty ==>
              r.outcome == AnalyzeFileOutcome(registry, file, Some(EffectiveProvider(param)), pdf, ocr)
    ensures r.status == AnalysisStatus(r.outcome)
  {
    if file.isEmpty then AnalysisReply(BadRequest, AnalysisError(Some(EmptyFileMessage)))
    else
      var o := AnalyzeFileOutcome(registry, file, Some(EffectiveProvider(param)), pdf, ocr);
      AnalysisReply(AnalysisStatus(o), o)
  }

  /** An empty upload gets the same reply whatever the providers, the
      parameter and the extractions: nothing behind the guard is consulted. */
  lemma EmptyFileConsultsNothing(r1: map<string, Provider>, r2: map<string, Provider>, file: MultipartFile,
                                 p1: Option<string>, p2: Option<string>, pdf1: PdfRead, pdf2: PdfRead,
                                 ocr1: Result<string, Exception>, ocr2: Result<string, Exception>)
    requires file.isEmpty
    ensures AnalyzeFileReply(r1, file, p1, pdf1, ocr1) == AnalyzeFileReply(r2, file, p2, pdf2, ocr2)
    ensures AnalyzeFileReply(r1, file, p1, pdf1, ocr1).status == BadRequest
  {
  }

  /** `POST /reports/analyze/text`. */
  function AnalyzeTextReply(registry: map<string, Provider>, reportText: Option<string>, param: Option<string>)
    : (r: AnalysisReply)
    ensures r.outcome == AnalyzeTextOutcome(registry, reportText, Some(EffectiveProvider(param)))
    ensures r.status == AnalysisStatus(r.outcome)
  {
    var o := AnalyzeTextOutcome(registry, reportText, Some(EffectiveProvider(param)));
    AnalysisReply(AnalysisStatus(o), o)
  }

  /** With the shipped providers and no parameter, text is analysed by
      Ollama, not by the orchestrator's default OpenRouter. */
  lemma ShippedTextDefaultIsOllama(openRouter: Provider, ollama: Provider, text: string)
    requires openRouter.name == "openrouter" && ollama.name == "ollama"
    requires !IsJavaBlank(text)
    ensures var r := AnalyzeTextReply(Registry([openRouter, ollama]), Some(text), None);
            r.status == OkStatus <==> ollama.analyzeReport(text).Ok?
    ensures var r := AnalyzeTextReply(Registry([openRouter, ollama]), Some(text), None);
            ollama.analyzeReport(text).Ok? ==> r.outcome == Analysed(Some(ollama.analyzeReport(text).value), Some(text))
  {
    var reg := Registry([openRouter, ollama]);
    RegistryLastWins([openRouter, ollama], 1);
    MissingParamLooksUpOllama(reg, None);
    assert Resolve(reg, Some(EffectiveProvider(None))) == Ok(Some(ollama));
  }

  /** The request body of the chat endpoint, after validation has ensured
      that the report text and the question are present. */
  datatype ChatRequest = ChatRequest(reportText: string, analysisSummary: Option<string>, question: string,
                                     conversationHistory: Option<seq<ChatMessage>>)

  datatype ChatReply = ChatReply(status: int, outcome: ChatOutcome)

  /** `POST /reports/chat`: 200 with the answer, or 500 naming what failed,
      whatever it was. */
  function ChatReplyFor(registry: map<string, Provider>, request: ChatRequest, param: Option<string>)
    : (r: ChatReply)
    ensures var a := HandleFollowUpOutcome(registry, request.reportText, request.analysisSummary,
                                           request.question, request.conversationHistory,
                                           Some(EffectiveProvider(param)));
            && (a.Ok? ==> r == ChatReply(OkStatus, Answered(a.value)))
            && (a.Err? ==> r == ChatReply(InternalServerError,
                                          ChatError(Some(ChatFailureLead + ValueOf(a.error.message)))))
  {
    match HandleFollowUpOutcome(registry, request.reportText, request.analysisSummary, request.question,
                                request.conversationHistory, Some(EffectiveProvider(param)))
    case Ok(answer) => ChatReply(OkStatus, Answered(answer))
    case Err(e) => ChatReply(InternalServerError, ChatError(Some(ChatFailureLead + ValueOf(e.message))))
  }

  /** A chat reply is an answer exactly when its status is 200, and every
      error it reports starts with the fixed lead. */
  lemma ChatReplyShape(registry: map<string, Provider>, request: ChatRequest, param: Option<string>)
    ensures var r := ChatReplyFor(registry, request, param);
            && (r.status == OkStatus <==> r.outcome.Answered?)
            && (r.status == OkStatus || r.status == InternalServerError)
            && (r.outcome.ChatError? ==> r.outcome.error.Some? && StartsWith(r.outcome.error.value, ChatFailureLead))
  {
    var r := ChatReplyFor(registry, request, param);
    if r.outcome.ChatError? {
      assert r.outcome.error.value[..|ChatFailureLead|] == ChatFailureLead;
    }
  }

  /** An unknown provider name reaches the chat client as a 500 that quotes
      the name. */
  lemma UnknownChatProvider(registry: map<string, Provider>, request: ChatRequest, name: string)
    requires name != [] && ProviderKey(name) !in registry
    ensures ChatReplyFor(registry, request, Some(name))
            == ChatReply(InternalServerError, ChatError(Some(ChatFailureLead + UnsupportedProviderLead + name)))
  {
    assert ChatFailureLead + (UnsupportedProviderLead + name) == ChatFailureLead + UnsupportedProviderLead + name;
  }

  /** The health payload. */
  datatype HealthReport = HealthReport(status: string, available: bool, provider: string, model: string)

  /** `GET /health`: always "UP"; the AI flag is the orchestrator's, while the
      provider and model it reports are fixed texts. */
  function HealthFor(registry: map<string, Provider>): (h: HealthReport)
    ensures h.status == "UP"
    ensures h.available <==> exists name :: name in registry && registry[name].available
    ensures h.provider == "ollama" && h.model == "mistral"
  {
    HealthReport("UP", AnyAvailable(registry), "ollama", "mistral")
  }

  /** The controller object, holding the orchestrator it delegates to. */
  class ReportController {
    const service: ReportService

    constructor (service: ReportService)
      ensures this.service == service
    {
      this.service := service;
    }

    /** `analyzeFile`. */
    method AnalyzeFile(file: MultipartFile, param: Option<string>, pdf: PdfRead, ocr: Result<string, Exception>)
      returns (status: int, body: ReportAnalysisResponse)
      ensures fresh(body)
      ensures var r := AnalyzeFileReply(service.services, file, param, pdf, ocr);
              status == r.status && body.Represents(r.outcome)
    {
      if file.isEmpty {
        body := ReportAnalysisResponse.Error(Some(EmptyFileMessage));
        status := BadRequest;
        return;
      }
      body := service.AnalyzeFile(file, Some(EffectiveProvider(param)), pdf, ocr);
      status := if body.success then OkStatus else BadRequest;
    }

    /** `analyzeText`. */
    method AnalyzeText(reportText: Option<string>, param: Option<string>)
      returns (status: int, body: ReportAnalysisResponse)
      ensures fresh(body)
      ensures var r := AnalyzeTextReply(service.services, reportText, param);
              status == r.status && body.Represents(r.outcome)
    {
      body := service.AnalyzeText(reportText, Some(EffectiveProvider(param)));
      status := if body.success then OkStatus else BadRequest;
    }

    /** `chat`: every failure of the follow-up is caught here. */
    method Chat(request: ChatRequest, param: Option<string>) returns (status: int, body: ChatResponse)
      ensures fresh(body)
      ensures var r := ChatReplyFor(service.services, request, param);
              status == r.status && body.Represents(r.outcome)
    {
      var answer := service.HandleFollowUp(request.reportText, request.analysisSummary, request.question,
                                           request.conversationHistory, Some(EffectiveProvider(param)));
      if answer.Ok? {
        body := ChatResponse.Success(answer.value);
        status := OkStatus;
      } else {
        body := ChatResponse.Error(Some(ChatFailureLead + ValueOf(answer.error.message)));
        status := InternalServerError;
      }
    }

    /** `health`. */
    method Health() returns (status: int, body: HealthReport)
      ensures status == OkStatus && body == HealthFor(service.services)
      ensures body.available == service.IsAIAvailable()
    {
      var available := service.IsAIAvailable();
      body := HealthReport("UP", available, "ollama", "mistral");
      status := OkStatus;
    }
  }
}
