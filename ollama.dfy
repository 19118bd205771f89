/** The Ollama provider (OllamaAIService): the `/api/generate` request of an
    analysis, the `/api/chat` request of a follow-up, how each reply is read,
    the fence-only sanitiser, the raw-response fallback and the availability
    ping. The HTTP calls and the JSON decoder are inputs. */
module Ollama {
  import opened Wrappers
  import opened Strings
  import opened Domain
  import opened PromptTemplates
  import opened CodeFence
  import opened AIService

  // ---------------------------------------------------------------------------
  // Requests and replies.

  /** The body posted to `/api/generate`. */
  datatype GenerateRequest = GenerateRequest(
    model: string,
    prompt: string,
    system: string,
    stream: bool,
    format: string)

  /** A decoded reply of `/api/generate`, as far as it is read: its keys, and
      under a key a string or JSON null. */
  type GenerateBody = map<string, Option<string>>

  /** The generate exchange: the reply body (null when there is none) or the
      exception the client threw. */
  type GenerateTransport = GenerateRequest -> Result<Option<GenerateBody>, Exception>

  /** A message of a chat request; both parts are required to be present. */
  datatype ChatTurn = ChatTurn(role: string, content: string)

  /** The body posted to `/api/chat`. */
  datatype ChatRequest = ChatRequest(model: string, messages: seq<ChatTurn>, stream: bool)

  /** A decoded reply of `/api/chat`, as far as it is read: under `message` an
      object (or JSON null) whose `content` is a string (or JSON null). */
  type ChatBody = map<string, Option<map<string, Option<string>>>>

  type ChatTransport = ChatRequest -> Result<Option<ChatBody>, Exception>

  const EmptyGenerateMessage: string := "Empty response from Ollama"
  const GenerateFailureLead: string := "Failed to get response from AI model: "
  const EmptyChatMessage: string := "Empty response from Ollama chat"
  const ChatFailureLead: string := "Failed to get chat response from AI model: "

  /** The `RuntimeException(lead + e.getMessage(), e)` that wraps a failure. */
  function Wrap(lead: string, e: Exception): (w: Exception)
    ensures w.message.Some? && StartsWith(w.message.value, lead)
    ensures e.message.Some? ==> w.message.value[|lead|..] == e.message.value
  {
    var m := Describe(lead, e);
    assert m[..|lead|] == lead;
    Exception(Some(m))
  }

  // ---------------------------------------------------------------------------
  // `callOllama` and `callOllamaChat`.

  /** The text of a generate reply: the value under `response`, which may be
      null, when the body has that key. */
  function GenerateText(reply: Option<GenerateBody>): (r: Result<Option<string>, Exception>)
    ensures r.Ok? <==> reply.Some? && "response" in reply.value
    ensures r.Ok? ==> r.value == reply.value["response"]
    ensures r.Err? ==> r.error == Exception(Some(EmptyGenerateMessage))
  {
    if reply.Some? && "response" in reply.value then Ok(reply.value["response"])
    else Err(Exception(Some(EmptyGenerateMessage)))
  }

  /** `callOllama`: the reply's text; the client's exception and a reply
      without text both come out wrapped. */
  function CallOllama(q: GenerateRequest, call: GenerateTransport): (r: Result<Option<string>, Exception>)
    ensures call(q).Err? ==> r == Err(Wrap(GenerateFailureLead, call(q).error))
    ensures call(q).Ok? && GenerateText(call(q).value).Err? ==>
              r == Err(Exception(Some(GenerateFailureLead + EmptyGenerateMessage)))
    ensures call(q).Ok? && GenerateText(call(q).value).Ok? ==> r == GenerateText(call(q).value)
    ensures r.Err? ==> r.error.message.Some? && StartsWith(r.error.message.value, GenerateFailureLead)
  {
    match call(q)
    case Err(e) => Err(Wrap(GenerateFailureLead, e))
    case Ok(reply) =>
      match GenerateText(reply)
      case Err(e) => Err(Wrap(GenerateFailureLead, e))
      case Ok(text) => Ok(text)
  }

  /** What `message.get("content")` attempts, in a NullPointerException. */
  const InvokeMapGet: string := "invoke \"java.util.Map.get(Object)\""

  /** The text of a chat reply: `message.content` when the body has the key
      `message`. A `message` that is null is dereferenced and fails; a missing
      `content` reads as null. */
  function ChatText(reply: Option<ChatBody>): (r: Result<Option<string>, Exception>)
    ensures r.Ok? <==> reply.Some? && "message" in reply.value && reply.value["message"].Some?
    ensures r.Ok? ==> var m := reply.value["message"].value;
                      r.value == if "content" in m then m["content"] else None
    ensures !(reply.Some? && "message" in reply.value) ==> r == Err(Exception(Some(EmptyChatMessage)))
    ensures reply.Some? && "message" in reply.value && reply.value["message"].None? ==>
              r.Err? && r.error.message.Some? && StartsWith(r.error.message.value, "Cannot " + InvokeMapGet)
  {
    if reply.Some? && "message" in reply.value then
      match reply.value["message"]
      case None => Err(NullPointer(InvokeMapGet, "\"message\""))
      case Some(m) => Ok(if "content" in m then m["content"] else None)
    else Err(Exception(Some(EmptyChatMessage)))
  }

  /** `callOllamaChat`: the reply's text; every failure comes out wrapped. */
  function CallOllamaChat(q: ChatRequest, call: ChatTransport): (r: Result<Option<string>, Exception>)
    ensures call(q).Err? ==> r == Err(Wrap(ChatFailureLead, call(q).error))
    ensures call(q).Ok? && ChatText(call(q).value).Err? ==>
              r == Err(Wrap(ChatFailureLead, ChatText(call(q).value).error))
    ensures call(q).Ok? && ChatText(call(q).value).Ok? ==> r == ChatText(call(q).value)
    ensures r.Err? ==> r.error.message.Some? && StartsWith(r.error.message.value, ChatFailureLead)
  {
    match call(q)
    case Err(e) => Err(Wrap(ChatFailureLead, e))
    case Ok(reply) =>
      match ChatText(reply)
      case Err(e) => Err(Wrap(ChatFailureLead, e))
      case Ok(text) => Ok(text)
  }

  // ---------------------------------------------------------------------------
  // `cleanJsonResponse`.

  /** `cleanJsonResponse`: trim; when the text then starts with a fence, drop
      the opening line and a closing fence; trim again. */
  function CleanJsonResponse(response: Option<string>): (r: string)
    ensures response.None? ==> r == "{}"
    ensures NoOuterSpace(r)
    ensures response.Some? && !StartsWith(Trim(response.value), Fence) ==> r == Trim(response.value)
  {
    match response
    case None => "{}"
    case Some(s) =>
      var cleaned := Trim(s);
      var unfenced := if StartsWith(cleaned, Fence) then Unfence(cleaned) else cleaned;
      Trim(unfenced)
  }

  /** A fenced block is cut down to its trimmed body. */
  lemma CleanFencedBlock(info: string, body: string)
    requires '\n' !in info
    ensures CleanJsonResponse(Some(Fence + info + "\n" + body + Fence)) == Trim(body)
  {
    var s := Fence + info + "\n" + body + Fence;
    assert s[0] == '`' && s[|s| - 1] == '`';
    assert StartsWith(s, Fence) by { assert s[..|Fence|] == Fence; }
    UnfenceBlock(info, body);
  }

  /** Without a closing fence only the opening line is dropped. */
  lemma CleanUnclosedFence(info: string, body: string)
    requires '\n' !in info && !EndsWith(body, Fence)
    requires body != [] && !IsJavaSpace(body[|body| - 1])
    ensures CleanJsonResponse(Some(Fence + info + "\n" + body)) == Trim(body)
  {
    var s := Fence + info + "\n" + body;
    assert s[0] == '`' && s[|s| - 1] == body[|body| - 1];
    assert Trim(s) == s;
    assert StartsWith(s, Fence) by { assert s[..|Fence|] == Fence; }
    UnfenceUnclosed(info, body);
    assert Unfence(s) == body;
  }

  /** Nothing but whitespace is removed from text that does not start with a
      fence, so a reasoning block before the object is kept. */
  lemma CleanKeepsUnfenced(s: string)
    requires s != [] && !IsJavaSpace(s[0]) && s[0] != '`'
    ensures CleanJsonResponse(Some(s)) == Trim(s)
  {
    TrimKeepsFirst(s);
    assert Trim(s)[0] != Fence[0];
  }

  /** Cleaning again changes nothing when the result does not itself start
      with a fence. */
  lemma CleanStable(response: Option<string>)
    requires !StartsWith(CleanJsonResponse(response), Fence)
    ensures CleanJsonResponse(Some(CleanJsonResponse(response))) == CleanJsonResponse(response)
  {
  }

  // ---------------------------------------------------------------------------
  // `analyzeReport` and its fallback.

  const FallbackSummaryLead: string :=
    "The AI provided an analysis but it could not be fully structured. Here is the raw response: "
  const FallbackDisclaimer: string :=
    "This summary is for educational purposes only. Please discuss these results with your healthcare provider."

  /** `createFallbackSummary(rawResponse)`: the raw response (printed as
      "null" when there is none) follows the fixed lead of the summary
      verbatim; every list is present and empty. */
  function Fallback(rawResponse: Option<string>): (r: ReportSummary)
    ensures r.summary.Some? && StartsWith(r.summary.value, FallbackSummaryLead)
    ensures r.summary.value[|FallbackSummaryLead|..] == ValueOf(rawResponse)
    ensures r.disclaimer == Some(FallbackDisclaimer)
    ensures r.findings == Some([]) && r.glossary == Some([]) && r.discussionQuestions == Some([])
  {
    var summary := FallbackSummaryLead + ValueOf(rawResponse);
    assert summary[..|FallbackSummaryLead|] == FallbackSummaryLead;
    ReportSummary(Some(summary), Some([]), Some([]), Some([]), Some(FallbackDisclaimer))
  }

  /** A generate request with the given prompts: not streamed, JSON format. */
  function AnalysisRequestFor(model: string, system: string, user: string): (q: GenerateRequest)
    ensures q.model == model && q.system == system && q.prompt == user
    ensures !q.stream && q.format == "json"
  {
    GenerateRequest(model, user, system, false, "json")
  }

  /** The analysis request: the shared system prompt and the report wrapped
      in the user template. */
  function AnalysisRequest(model: string, reportText: string): (q: GenerateRequest)
    ensures q.model == model && q.system == AnalysisSystemPrompt && !q.stream && q.format == "json"
    ensures CarriesReport(q.prompt, reportText)
  {
    var user := BuildAnalysisUserPrompt(reportText);
    AnalysisPromptRoundTrip(reportText);
    assert CarriesReport(user, reportText);
    AnalysisRequestFor(model, AnalysisSystemPrompt, user)
  }

  /** `analyzeReport` once the request is built. A failure of the call is not
      caught and propagates; a reply the decoder rejects gives the fallback
      carrying the raw, uncleaned reply. */
  function AnalyzeWith(q: GenerateRequest, call: GenerateTransport, decode: Decoder)
    : (r: Result<ReportSummary, Exception>)
    ensures r.Err? <==> CallOllama(q, call).Err?
    ensures r.Err? ==> r.error == CallOllama(q, call).error
    ensures CallOllama(q, call).Ok? ==>
              var response := CallOllama(q, call).value;
              r == if decode(CleanJsonResponse(response)).Ok? then Ok(decode(CleanJsonResponse(response)).value)
                   else Ok(Fallback(response))
  {
    match CallOllama(q, call)
    case Err(e) => Err(e)
    case Ok(response) =>
      match decode(CleanJsonResponse(response))
      case Err(_) => Ok(Fallback(response))
      case Ok(summary) => Ok(summary)
  }

  /** `analyzeReport`. */
  function AnalyzeReport(model: string, reportText: string, call: GenerateTransport, decode: Decoder)
    : Result<ReportSummary, Exception>
  {
    AnalyzeWith(AnalysisRequest(model, reportText), call, decode)
  }

  /** A null `response` field is cleaned to "{}" and handed to the decoder,
      so it gives the decoder's reading of an empty object, not the
      fallback, unless the decoder rejects "{}". */
  lemma NullResponseDecodesEmptyObject(q: GenerateRequest, call: GenerateTransport, decode: Decoder)
    requires CallOllama(q, call) == Ok(None)
    ensures AnalyzeWith(q, call, decode) ==
              if decode("{}").Ok? then Ok(decode("{}").value) else Ok(Fallback(None))
  {
  }

  /** The only exceptions `analyzeReport` lets out are the wrapped failures
      of the generate call; a reply that cannot be decoded never fails it. */
  lemma AnalysisFailsOnlyInCall(q: GenerateRequest, call: GenerateTransport, decode: Decoder)
    ensures AnalyzeWith(q, call, decode).Err? ==>
              call(q).Err? || GenerateText(call(q).value).Err?
  {
  }

  // ---------------------------------------------------------------------------
  // `answerFollowUp`.

  /** The chat message for a history turn, role and content as given. A
      missing part makes `Map.of` throw a NullPointerException that has no
      message. */
  function HistoryTurn(m: ChatMessage): (r: Result<ChatTurn, Exception>)
    ensures r.Ok? <==> m.role.Some? && m.content.Some?
    ensures r.Ok? ==> r.value == ChatTurn(m.role.value, m.content.value)
    ensures r.Err? ==> r.error == Exception(None)
  {
    if m.role.Some? && m.content.Some? then Ok(ChatTurn(m.role.value, m.content.value))
    else Err(Exception(None))
  }

  /** The history as chat messages, in order, or the failure of the first
      incomplete turn. */
  function HistoryTurns(history: seq<ChatMessage>): (r: Result<seq<ChatTurn>, Exception>)
    ensures r.Ok? <==> forall i :: 0 <= i < |history| ==> HistoryTurn(history[i]).Ok?
    ensures r.Ok? ==> |r.value| == |history|
                      && forall i :: 0 <= i < |history| ==> HistoryTurn(history[i]) == Ok(r.value[i])
    ensures r.Err? ==> r.error == Exception(None)
  {
    if history == [] then Ok([])
    else
      var n := |history| - 1;
      match HistoryTurns(history[..n])
      case Err(e) =>
        assert history[..n][0..] == history[..n];
        Err(e)
      case Ok(front) =>
        match HistoryTurn(history[n])
        case Err(e) => Err(e)
        case Ok(last) => Ok(front + [last])
  }

  /** Once a prefix of the history fails, the whole history fails. */
  lemma {:induction false} HistoryTurnsFailureStays(history: seq<ChatMessage>, n: nat)
    requires n <= |history| && HistoryTurns(history[..n]).Err?
    ensures HistoryTurns(history) == HistoryTurns(history[..n])
    decreases |history| - n
  {
    if n < |history| {
      assert history[..n + 1][..n] == history[..n];
      assert HistoryTurns(history[..n + 1]) == HistoryTurns(history[..n]);
      HistoryTurnsFailureStays(history, n + 1);
    } else {
      assert history[..n] == history;
    }
  }

  /** The chat messages of a follow-up: the system prompt, the history turns,
      the question. */
  function FollowUpTurns(system: string, turns: seq<ChatTurn>, question: string): (ms: seq<ChatTurn>)
    ensures |ms| == |turns| + 2
    ensures ms[0] == ChatTurn("system", system)
    ensures ms[1..|ms| - 1] == turns
    ensures ms[|ms| - 1] == ChatTurn("user", question)
  {
    [ChatTurn("system", system)] + turns + [ChatTurn("user", question)]
  }

  /** The follow-up chat request for a given system prompt, or the failure of
      an incomplete history turn. A missing history counts as an empty one. */
  function FollowUpRequestFor(model: string, system: string, question: string,
                              history: Option<seq<ChatMessage>>)
    : (r: Result<ChatRequest, Exception>)
    ensures history.None? ==> r == Ok(ChatRequest(model, FollowUpTurns(system, [], question), false))
    ensures history.Some? ==> (r.Ok? <==> HistoryTurns(history.value).Ok?)
    ensures history.Some? && r.Ok? ==>
              r.value == ChatRequest(model, FollowUpTurns(system, HistoryTurns(history.value).value, question), false)
    ensures r.Err? ==> r.error == Exception(None)
  {
    var turns := if history.None? then Ok([]) else HistoryTurns(history.value);
    match turns
    case Err(e) => Err(e)
    case Ok(ms) => Ok(ChatRequest(model, FollowUpTurns(system, ms, question), false))
  }

  /** The layout of a follow-up request: system prompt first, each history
      turn in order with role and content exactly as given (the role is not
      lowercased), the question last. */
  lemma FollowUpRequestShape(model: string, system: string, question: string,
                             history: seq<ChatMessage>)
    requires forall i :: 0 <= i < |history| ==> history[i].role.Some? && history[i].content.Some?
    ensures var r := FollowUpRequestFor(model, system, question, Some(history));
            && r.Ok?
            && var ms := r.value.messages;
            && |ms| == |history| + 2
            && ms[0] == ChatTurn("system", system)
            && (forall i :: 0 <= i < |history| ==>
                  ms[i + 1] == ChatTurn(history[i].role.value, history[i].content.value))
            && ms[|ms| - 1] == ChatTurn("user", question)
  {
    var ms := FollowUpRequestFor(model, system, question, Some(history)).value.messages;
    forall i | 0 <= i < |history|
      ensures ms[i + 1] == ChatTurn(history[i].role.value, history[i].content.value)
    {
      assert ms[i + 1] == ms[1..|ms| - 1][i];
    }
  }

  /** `answerFollowUp` with a given system prompt: an incomplete history turn
      fails before the call and propagates unwrapped; otherwise the outcome of
      `callOllamaChat`. */
  function FollowUpAnswerFor(model: string, system: string, question: string,
                             history: Option<seq<ChatMessage>>, call: ChatTransport)
    : (r: Result<Option<string>, Exception>)
    ensures var q := FollowUpRequestFor(model, system, question, history);
            && (q.Err? ==> r == Err(Exception(None)))
            && (q.Ok? ==> r == CallOllamaChat(q.value, call))
  {
    match FollowUpRequestFor(model, system, question, history)
    case Err(e) => Err(e)
    case Ok(q) => CallOllamaChat(q, call)
  }

  /** `answerFollowUp` as written: the message list is an array list filled
      in a loop over the history; the system prompt is the follow-up template
      filled with the report and the previous summary. */
  method AnswerFollowUp(model: string, reportText: string, analysisSummary: Option<string>,
                        question: string, history: Option<seq<ChatMessage>>, call: ChatTransport)
    returns (r: Result<Option<string>, Exception>)
    ensures r == FollowUpAnswerFor(model, BuildFollowUpSystemPrompt(reportText, analysisSummary),
                                   question, history, call)
  {
    var system := BuildFollowUpSystemPrompt(reportText, analysisSummary);
    r := AnswerWith(model, system, question, history, call);
  }

  /** The body of `answerFollowUp` once the system prompt is built. */
  method AnswerWith(model: string, system: string, question: string,
                    history: Option<seq<ChatMessage>>, call: ChatTransport)
    returns (r: Result<Option<string>, Exception>)
    ensures r == FollowUpAnswerFor(model, system, question, history, call)
  {
    var turns: seq<ChatTurn> := [];
    if history.Some? {
      var h := history.value;
      var i := 0;
      while i < |h|
        invariant 0 <= i <= |h|
        invariant HistoryTurns(h[..i]) == Ok(turns)
      {
        assert h[..i + 1][..i] == h[..i];
        if h[i].role.None? || h[i].content.None? {
          HistoryTurnsFailureStays(h, i + 1);
          r := Err(Exception(None));
          return;
        }
        turns := turns + [ChatTurn(h[i].role.value, h[i].content.value)];
        i := i + 1;
      }
      assert h[..i] == h;
    }
    r := CallOllamaChat(ChatRequest(model, FollowUpTurns(system, turns, question), false), call);
  }

  // ---------------------------------------------------------------------------
  // `isAvailable`.

  /** Ollama is available exactly when the ping of `/api/tags` returns,
      whatever it returns; an exception of the ping reads as unavailable. */
  function IsAvailable(ping: Result<Option<string>, Exception>): (up: bool)
    ensures ping.Err? ==> !up
    ensures ping.Ok? ==> up
  {
    ping.Ok?
  }

  // ---------------------------------------------------------------------------
  // The provider.

  /** OllamaAIService as an `AIService`: named "ollama", available when the
      ping answers, keeping both image defaults. */
  function Service(model: string, ping: Result<Option<string>, Exception>,
                   generate: GenerateTransport, chat: ChatTransport, decode: Decoder)
    : (p: Provider)
    ensures p.name == "ollama" && !p.supportsImages
    ensures p.available <==> IsAvailable(ping)
    ensures forall t :: p.analyzeReport(t) == AnalyzeReport(model, t, generate, decode)
    ensures forall r, s, q, h :: p.answerFollowUp(r, s, q, h) ==
              FollowUpAnswerFor(model, BuildFollowUpSystemPrompt(r, s), q, h, chat)
    ensures forall f :: p.analyzeImage(f) == Err(ImageRejection("ollama"))
  {
    TextOnlyProvider("ollama", IsAvailable(ping),
                     t => AnalyzeReport(model, t, generate, decode),
                     (r, s, q, h) => FollowUpAnswerFor(model, BuildFollowUpSystemPrompt(r, s), q, h, chat))
  }
}
