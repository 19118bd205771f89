/** The orchestrator (ReportService): the registry of providers by name, the
    provider lookup, and the analysis of text and of uploaded files, each
    turned into a response object. The PDF and OCR extractions of an upload
    are inputs. */
module Reports {
  import opened Wrappers
  import opened Strings
  import opened Domain
  import opened AIService
  import opened Responses
  import opened OcrService
  import opened PdfParser
  import OpenRouter
  import Ollama

  // ---------------------------------------------------------------------------
  // The registry.

  /** The map the constructor builds: each provider stored under its name,
      a later provider replacing an earlier one of the same name. */
  function Registry(providers: seq<Provider>): (m: map<string, Provider>)
    ensures forall i :: 0 <= i < |providers| ==> providers[i].name in m
  {
    if providers == [] then map[]
    else
      var n := |providers| - 1;
      var front := Registry(providers[..n]);
      assert forall i :: 0 <= i < n ==> providers[..n][i] == providers[i];
      front[providers[n].name := providers[n]]
  }

  /** Only the providers' names are keys. */
  lemma {:induction false} RegistryHasOnlyNames(providers: seq<Provider>, name: string)
    requires name in Registry(providers)
    ensures exists i :: 0 <= i < |providers| && providers[i].name == name
  {
    var n := |providers| - 1;
    if name != providers[n].name {
      RegistryHasOnlyNames(providers[..n], name);
      var i :| 0 <= i < n && providers[..n][i].name == name;
      assert providers[i].name == name;
    }
  }

  /** The entry for a name is the last provider in the list with that name. */
  lemma {:induction false} RegistryLastWins(providers: seq<Provider>, i: nat)
    requires i < |providers|
    requires forall j :: i < j < |providers| ==> providers[j].name != providers[i].name
    ensures providers[i].name in Registry(providers)
    ensures Registry(providers)[providers[i].name] == providers[i]
  {
    var n := |providers| - 1;
    if i < n {
      var front := providers[..n];
      assert front[i] == providers[i];
      forall j | i < j < n
        ensures front[j].name != front[i].name
      {
        assert front[j] == providers[j];
      }
      RegistryLastWins(front, i);
    }
  }

  // ---------------------------------------------------------------------------
  // `getService`.

  const DefaultProvider: string := "openrouter"
  const UnsupportedProviderLead: string := "Unsupported AI provider: "

  /** The key a non-empty provider name is looked up under: lowercased, with
      "gemini" standing for OpenRouter. */
  function ProviderKey(provider: string): (k: string)
    ensures ToLower(provider) == "gemini" ==> k == DefaultProvider
    ensures ToLower(provider) != "gemini" ==> k == ToLower(provider)
  {
    var key := ToLower(provider);
    if key == "gemini" then DefaultProvider else key
  }

  /** `getService`: a missing or empty name gives the OpenRouter entry, null
      when there is none; any other name is looked up under its key and
      fails, quoting the name as given, when nothing is registered there. */
  function Resolve(registry: map<string, Provider>, provider: Option<string>)
    : (r: Result<Option<Provider>, Exception>)
    ensures provider.None? || provider.value == [] ==>
              r == Ok(if DefaultProvider in registry then Some(registry[DefaultProvider]) else None)
    ensures provider.Some? && provider.value != [] ==>
              && (r.Ok? <==> ProviderKey(provider.value) in registry)
              && (r.Ok? ==> r == Ok(Some(registry[ProviderKey(provider.value)])))
              && (r.Err? ==> r.error == Exception(Some(UnsupportedProviderLead + provider.value)))
  {
    if provider.None? || provider.value == [] then
      Ok(if DefaultProvider in registry then Some(registry[DefaultProvider]) else None)
    else
      var key := ProviderKey(provider.value);
      if key in registry then Ok(Some(registry[key]))
      else Err(Exception(Some(UnsupportedProviderLead + provider.value)))
  }

  /** The lookup ignores case: two names that lowercase alike resolve alike,
      apart from the spelling quoted in the error. */
  lemma ResolveIgnoresCase(registry: map<string, Provider>, a: string, b: string)
    requires a != [] && b != [] && ToLower(a) == ToLower(b)
    ensures Resolve(registry, Some(a)).Ok? <==> Resolve(registry, Some(b)).Ok?
    ensures Resolve(registry, Some(a)).Ok? ==> Resolve(registry, Some(a)) == Resolve(registry, Some(b))
  {
  }

  /** "gemini", in any case, is the OpenRouter entry. */
  lemma GeminiIsOpenRouter(registry: map<string, Provider>, provider: string)
    requires ToLower(provider) == "gemini" && DefaultProvider in registry
    ensures Resolve(registry, Some(provider)) == Ok(Some(registry[DefaultProvider]))
  {
  }

  /** A name of white space only is not the default: it is looked up like
      any other name. */
  lemma BlankNameIsLookedUp(registry: map<string, Provider>)
    requires " " !in registry
    ensures Resolve(registry, Some(" ")) == Err(Exception(Some(UnsupportedProviderLead + " ")))
  {
    assert ToLower(" ") == " ";
  }

  /** `isAIAvailable`: some registered provider is available. */
  function AnyAvailable(registry: map<string, Provider>): (any: bool)
    ensures registry == map[] ==> !any
    ensures forall name :: name in registry && registry[name].available ==> any
  {
    exists name :: name in registry && registry[name].available
  }

  /** With distinct names, the registry is available exactly when one of the
      providers is; with none, it is not. */
  lemma AvailableIffSomeProvider(providers: seq<Provider>)
    requires forall i, j :: 0 <= i < j < |providers| ==> providers[i].name != providers[j].name
    ensures AnyAvailable(Registry(providers)) <==> exists i :: 0 <= i < |providers| && providers[i].available
  {
    var reg := Registry(providers);
    if exists i :: 0 <= i < |providers| && providers[i].available {
      var i :| 0 <= i < |providers| && providers[i].available;
      RegistryLastWins(providers, i);
      assert reg[providers[i].name].available;
    }
    if AnyAvailable(reg) {
      var name :| name in reg && reg[name].available;
      RegistryHasOnlyNames(providers, name);
      var i :| 0 <= i < |providers| && providers[i].name == name;
      RegistryLastWins(providers, i);
    }
  }

  // ---------------------------------------------------------------------------
  // `analyzeText`.

  const EmptyTextMessage: string := "Report text is empty. Please provide lab report content."
  const AnalysisFailureLead: string := "Analysis failed: "

  const AnalyzeReportCall: string := "analyzeReport(String)"

  /** The NullPointerException of calling a provider that the default lookup
      found missing. */
  function MissingService(invoked: string): (e: Exception)
    ensures e.message.Some?
  {
    NullPointer("invoke \"com.patientvocate.service.ai.AIService." + invoked + "\"", "\"service\"")
  }

  /** What `analyzeText` reports: the empty-text error, the analysis with the
      text unchanged, or "Analysis failed: " and the message of whatever
      failed (the lookup, a missing default provider, the provider). */
  function AnalyzeTextOutcome(registry: map<string, Provider>, reportText: Option<string>,
                              provider: Option<string>)
    : (o: AnalysisOutcome)
    ensures reportText.None? || IsJavaBlank(reportText.value) ==> o == AnalysisError(Some(EmptyTextMessage))
    ensures o.Analysed? ==> o.reportText == reportText && o.analysis.Some?
    ensures reportText.Some? && !IsJavaBlank(reportText.value) && Resolve(registry, provider).Err? ==>
              o == AnalysisError(Some(Describe(AnalysisFailureLead, Resolve(registry, provider).error)))
    ensures reportText.Some? && !IsJavaBlank(reportText.value) && Resolve(registry, provider) == Ok(None) ==>
              o == AnalysisError(Some(Describe(AnalysisFailureLead, MissingService(AnalyzeReportCall))))
    ensures reportText.Some? && !IsJavaBlank(reportText.value) && Resolve(registry, provider).Ok? &&
            Resolve(registry, provider).value.Some? &&
            Resolve(registry, provider).value.value.analyzeReport(reportText.value).Err? ==>
              o == AnalysisError(Some(Describe(AnalysisFailureLead,
                     Resolve(registry, provider).value.value.analyzeReport(reportText.value).error)))
    ensures o.Analysed? <==>
              && reportText.Some? && !IsJavaBlank(reportText.value)
              && Resolve(registry, provider).Ok? && Resolve(registry, provider).value.Some?
              && Resolve(registry, provider).value.value.analyzeReport(reportText.value).Ok?
    ensures o.Analysed? ==>
              o.analysis == Some(Resolve(registry, provider).value.value.analyzeReport(reportText.value).value)
  {
    if reportText.None? || Trim(reportText.value) == [] then AnalysisError(Some(EmptyTextMessage))
    else
      match Resolve(registry, provider)
      case Err(e) => AnalysisError(Some(Describe(AnalysisFailureLead, e)))
      case Ok(None) => AnalysisError(Some(Describe(AnalysisFailureLead, MissingService(AnalyzeReportCall))))
      case Ok(Some(p)) =>
        match p.analyzeReport(reportText.value)
        case Err(e) => AnalysisError(Some(Describe(AnalysisFailureLead, e)))
        case Ok(summary) => Analysed(Some(summary), reportText)
  }

  /** Blank text is refused before any provider is consulted: the outcome
      does not depend on the registry or the provider name. */
  lemma BlankTextConsultsNoProvider(r1: map<string, Provider>, r2: map<string, Provider>,
                                    text: string, p1: Option<string>, p2: Option<string>)
    requires IsJavaBlank(text)
    ensures AnalyzeTextOutcome(r1, Some(text), p1) == AnalyzeTextOutcome(r2, Some(text), p2)
  {
  }

  /** Every error of `analyzeText` other than the empty-text one starts
      with "Analysis failed: ". */
  lemma AnalyzeTextErrors(registry: map<string, Provider>, reportText: Option<string>, provider: Option<string>)
    ensures var o := AnalyzeTextOutcome(registry, reportText, provider);
            o.AnalysisError? && o.error != Some(EmptyTextMessage) ==>
              o.error.Some? && StartsWith(o.error.value, AnalysisFailureLead)
  {
    var o := AnalyzeTextOutcome(registry, reportText, provider);
    if o.AnalysisError? && o.error != Some(EmptyTextMessage) {
      assert o.error.value[..|AnalysisFailureLead|] == AnalysisFailureLead;
    }
  }

  // ---------------------------------------------------------------------------
  // `analyzeFile` and `extractTextFromFile`.

  const UnsupportedTypeMessage: string :=
    "Unsupported file type. Please upload a PDF or image (JPG, PNG, TIFF, BMP)."
  const FileFailureLead: string := "Failed to process file: "
  const DirectImageLead: string := "[Direct Image Analysis by "

  /** `extractTextFromFile`: a PDF goes to the PDF parser, checked first;
      otherwise an image goes to OCR; anything else is refused. */
  function ExtractTextFromFile(file: MultipartFile, pdf: PdfRead, ocr: Result<string, Exception>)
    : (r: Result<string, Exception>)
    ensures IsPdf(file) ==> r == PdfParser.ExtractText(pdf)
    ensures !IsPdf(file) && IsImage(file) ==> r == ocr
    ensures !IsPdf(file) && !IsImage(file) ==> r == Err(Exception(Some(UnsupportedTypeMessage)))
  {
    if IsPdf(file) then PdfParser.ExtractText(pdf)
    else if IsImage(file) then ocr
    else Err(Exception(Some(UnsupportedTypeMessage)))
  }

  /** The direct image analysis `analyzeFile` tries first: only for an image,
      a provider that the lookup finds and that supports images, and an
      analysis that succeeds. Any failure on this path is swallowed. */
  function DirectImageAnalysis(registry: map<string, Provider>, file: MultipartFile, provider: Option<string>)
    : (r: Option<ReportSummary>)
    ensures r.Some? <==>
              && IsImage(file) && Resolve(registry, provider).Ok? && Resolve(registry, provider).value.Some?
              && Resolve(registry, provider).value.value.supportsImages
              && Resolve(registry, provider).value.value.analyzeImage(file).Ok?
    ensures r.Some? ==> r.value == Resolve(registry, provider).value.value.analyzeImage(file).value
  {
    if !IsImage(file) then None
    else
      match Resolve(registry, provider)
      case Ok(Some(p)) =>
        if p.supportsImages && p.analyzeImage(file).Ok? then Some(p.analyzeImage(file).value) else None
      case _ => None
  }

  /** What `analyzeFile` reports: the direct image analysis when it worked,
      labelled with the provider name; otherwise the analysis of the
      extracted text, or "Failed to process file: " and the extraction's
      message. */
  function AnalyzeFileOutcome(registry: map<string, Provider>, file: MultipartFile, provider: Option<string>,
                              pdf: PdfRead, ocr: Result<string, Exception>)
    : (o: AnalysisOutcome)
    ensures DirectImageAnalysis(registry, file, provider).Some? ==>
              o == Analysed(DirectImageAnalysis(registry, file, provider), Some(DirectImageLead + ValueOf(provider) + "]"))
    ensures DirectImageAnalysis(registry, file, provider).None? && ExtractTextFromFile(file, pdf, ocr).Err? ==>
              o == AnalysisError(Some(Describe(FileFailureLead, ExtractTextFromFile(file, pdf, ocr).error)))
    ensures DirectImageAnalysis(registry, file, provider).None? && ExtractTextFromFile(file, pdf, ocr).Ok? ==>
              o == AnalyzeTextOutcome(registry, Some(ExtractTextFromFile(file, pdf, ocr).value), provider)
  {
    match DirectImageAnalysis(registry, file, provider)
    case Some(summary) => Analysed(Some(summary), Some(DirectImageLead + ValueOf(provider) + "]"))
    case None =>
      match ExtractTextFromFile(file, pdf, ocr)
      case Err(e) => AnalysisError(Some(Describe(FileFailureLead, e)))
      case Ok(text) => AnalyzeTextOutcome(registry, Some(text), provider)
  }

  /** A file that is neither a PDF nor an image is refused with the
      unsupported-type message, whatever the providers are. */
  lemma UnsupportedFileRefused(registry: map<string, Provider>, file: MultipartFile, provider: Option<string>,
                               pdf: PdfRead, ocr: Result<string, Exception>)
    requires !IsPdf(file) && !IsImage(file)
    ensures AnalyzeFileOutcome(registry, file, provider, pdf, ocr)
            == AnalysisError(Some(FileFailureLead + UnsupportedTypeMessage))
  {
  }

  /** When no registered provider supports images, every upload goes through
      text extraction. */
  lemma TextOnlyRegistryExtracts(registry: map<string, Provider>, file: MultipartFile, provider: Option<string>)
    requires forall name :: name in registry ==> !registry[name].supportsImages
    ensures DirectImageAnalysis(registry, file, provider).None?
  {
  }

  // ---------------------------------------------------------------------------
  // `handleFollowUp`.

  const AnswerFollowUpCall: string := "answerFollowUp(String, String, String, java.util.List)"

  /** `handleFollowUp`: the provider's answer; a failed lookup and a missing
      default provider are not caught. */
  function HandleFollowUpOutcome(registry: map<string, Provider>, reportText: string,
                                 analysisSummary: Option<string>, question: string,
                                 history: Option<seq<ChatMessage>>, provider: Option<string>)
    : (r: Result<Option<string>, Exception>)
    ensures Resolve(registry, provider).Err? ==> r == Err(Resolve(registry, provider).error)
    ensures Resolve(registry, provider) == Ok(None) ==> r == Err(MissingService(AnswerFollowUpCall))
    ensures Resolve(registry, provider).Ok? && Resolve(registry, provider).value.Some? ==>
              r == Resolve(registry, provider).value.value.answerFollowUp(reportText, analysisSummary, question, history)
  {
    match Resolve(registry, provider)
    case Err(e) => Err(e)
    case Ok(None) => Err(MissingService(AnswerFollowUpCall))
    case Ok(Some(p)) => p.answerFollowUp(reportText, analysisSummary, question, history)
  }

  // ---------------------------------------------------------------------------
  // The service object.

  class ReportService {
    var services: map<string, Provider>

    /** The constructor fills the map in one pass over the providers. */
    constructor (providers: seq<Provider>)
      ensures services == Registry(providers)
    {
      services := map[];
      new;
      var i := 0;
      while i < |providers|
        invariant 0 <= i <= |providers|
        invariant services == Registry(providers[..i])
      {
        assert providers[..i + 1][..i] == providers[..i];
        services := services[providers[i].name := providers[i]];
        i := i + 1;
      }
      assert providers[..i] == providers;
    }

    /** `isAIAvailable`. */
    function IsAIAvailable(): (any: bool)
      reads this
      ensures services == map[] ==> !any
      ensures forall name :: name in services && services[name].available ==> any
      ensures any ==> exists name :: name in services && services[name].available
    {
      AnyAvailable(services)
    }

    /** `analyzeText`. */
    method AnalyzeText(reportText: Option<string>, provider: Option<string>) returns (r: ReportAnalysisResponse)
      ensures fresh(r) && r.Represents(AnalyzeTextOutcome(services, reportText, provider))
    {
      if reportText.None? || Trim(reportText.value) == [] {
        r := ReportAnalysisResponse.Error(Some(EmptyTextMessage));
        return;
      }
      var service := Resolve(services, provider);
      if service.Err? {
        r := ReportAnalysisResponse.Error(Some(Describe(AnalysisFailureLead, service.error)));
      } else if service.value.None? {
        r := ReportAnalysisResponse.Error(Some(Describe(AnalysisFailureLead, MissingService(AnalyzeReportCall))));
      } else {
        var summary := service.value.value.analyzeReport(reportText.value);
        if summary.Err? {
          r := ReportAnalysisResponse.Error(Some(Describe(AnalysisFailureLead, summary.error)));
        } else {
          r := ReportAnalysisResponse.Success(Some(summary.value), reportText);
        }
      }
    }

    /** `analyzeFile`. */
    method AnalyzeFile(file: MultipartFile, provider: Option<string>, pdf: PdfRead, ocr: Result<string, Exception>)
      returns (r: ReportAnalysisResponse)
      ensures fresh(r) && r.Represents(AnalyzeFileOutcome(services, file, provider, pdf, ocr))
    {
      if IsImage(file) {
        var service := Resolve(services, provider);
        if service.Ok? && service.value.Some? && service.value.value.supportsImages {
          var summary := service.value.value.analyzeImage(file);
          if summary.Ok? {
            r := ReportAnalysisResponse.Success(Some(summary.value), Some(DirectImageLead + ValueOf(provider) + "]"));
            return;
          }
        }
      }
      var text := ExtractTextFromFile(file, pdf, ocr);
      if text.Err? {
        r := ReportAnalysisResponse.Error(Some(Describe(FileFailureLead, text.error)));
      } else {
        r := AnalyzeText(Some(text.value), provider);
      }
    }

    /** `handleFollowUp`. */
    method HandleFollowUp(reportText: string, analysisSummary: Option<string>, question: string,
                          history: Option<seq<ChatMessage>>, provider: Option<string>)
      returns (r: Result<Option<string>, Exception>)
      ensures Resolve(services, provider).Err? ==> r == Err(Resolve(services, provider).error)
      ensures Resolve(services, provider) == Ok(None) ==> r == Err(MissingService(AnswerFollowUpCall))
      ensures Resolve(services, provider).Ok? && Resolve(services, provider).value.Some? ==>
                r == Resolve(services, provider).value.value.answerFollowUp(reportText, analysisSummary, question, history)
    {
      var service := Resolve(services, provider);
      if service.Err? {
        r := Err(service.error);
      } else if service.value.None? {
        r := Err(MissingService(AnswerFollowUpCall));
      } else {
        r := service.value.value.answerFollowUp(reportText, analysisSummary, question, history);
      }
    }
  }

  // ---------------------------------------------------------------------------
  // The shipped configuration.

  /** The registry of the two shipped providers holds exactly "openrouter"
      and "ollama", neither supports images, and so every upload is analysed
      from its extracted text. */
  lemma ShippedRegistry(openRouter: Provider, ollama: Provider, file: MultipartFile, provider: Option<string>)
    requires openRouter.name == "openrouter" && !openRouter.supportsImages
    requires ollama.name == "ollama" && !ollama.supportsImages
    ensures "openrouter" in Registry([openRouter, ollama]) && "ollama" in Registry([openRouter, ollama])
    ensures forall name :: name in Registry([openRouter, ollama]) ==> name == "openrouter" || name == "ollama"
    ensures Resolve(Registry([openRouter, ollama]), None) == Ok(Some(openRouter))
    ensures DirectImageAnalysis(Registry([openRouter, ollama]), file, provider).None?
  {
    var reg := Registry([openRouter, ollama]);
    assert [openRouter, ollama][..1] == [openRouter];
    assert [openRouter][..0] == [];
    assert Registry([openRouter]) == map[][openRouter.name := openRouter];
    assert reg == Registry([openRouter])[ollama.name := ollama];
    assert reg["openrouter"] == openRouter;
    TextOnlyRegistryExtracts(reg, file, provider);
  }

  /** The shipped providers as built by their modules meet the requirements
      of `ShippedRegistry`. */
  lemma ShippedProvidersTextOnly(apiKey: Option<string>, openRouterModel: string,
                                 call: OpenRouter.Transport, decode: Decoder,
                                 ollamaModel: string, ping: Result<Option<string>, Exception>,
                                 generate: Ollama.GenerateTransport, chat: Ollama.ChatTransport)
    ensures var a := OpenRouter.Service(apiKey, openRouterModel, call, decode);
            var b := Ollama.Service(ollamaModel, ping, generate, chat, decode);
            && a.name == "openrouter" && !a.supportsImages && b.name == "ollama" && !b.supportsImages
            && (forall f :: a.analyzeImage(f) == Err(ImageRejection("openrouter")))
            && (forall f :: b.analyzeImage(f) == Err(ImageRejection("ollama")))
  {
  }
}
