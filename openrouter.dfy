/** The OpenRouter provider (OpenRouterAIService): the chat-completions
    request it sends, how it reads and sanitises the reply, the fallback it
    substitutes for a failure, and its availability test. The HTTP call and
    the JSON decoder are inputs. */
module OpenRouter {
  import opened Wrappers
  import opened Strings
  import opened Domain
  import opened PromptTemplates
  import opened CodeFence
  import opened AIService

  // ---------------------------------------------------------------------------
  // Request and reply.

  /** A message of the request (role and content); the content of a history
      message may be null. */
  datatype WireMessage = WireMessage(role: string, content: Option<string>)

  /** The request body. The sampling temperature is left out. */
  datatype CompletionRequest = CompletionRequest(
    model: string,
    messages: seq<WireMessage>,
    responseFormat: Option<map<string, string>>,
    maxTokens: int,
    reasoningEnabled: Option<bool>)

  /** The reply body, as far as it is read: `choices[0].message.content`.
      Every reference on that path may be null. */
  datatype ReplyMessage = ReplyMessage(content: Option<string>)
  datatype Choice = Choice(message: Option<ReplyMessage>)
  datatype CompletionReply = CompletionReply(choices: Option<seq<Option<Choice>>>)

  /** The HTTP exchange: the reply body (null when there is none) or the
      exception the client threw. */
  type Transport = CompletionRequest -> Result<Option<CompletionReply>, Exception>

  const EmptyReplyMessage: string :=
    "Empty response from OpenRouter API. Check if your API key has balance or if the model is reachable."

  const NoJsonMessage: string :=
    "AI model failed to provide a structured JSON response. It only provided reasoning text."

  /** `extractText`: the content of the first choice, or a failure. */
  function ExtractText(reply: Option<CompletionReply>): (r: Result<string, Exception>)
    ensures r.Ok? <==>
              && reply.Some? && reply.value.choices.Some? && |reply.value.choices.value| > 0
              && var c := reply.value.choices.value[0];
                 c.Some? && c.value.message.Some? && c.value.message.value.content.Some?
    ensures r.Ok? ==> r.value == reply.value.choices.value[0].value.message.value.content.value
    ensures r.Err? && reply.Some? && reply.value.choices.Some? && |reply.value.choices.value| > 0
              && reply.value.choices.value[0].None?
            ==> r.error.message.Some? && StartsWith(r.error.message.value, "Cannot read field")
    ensures r.Err? && !(reply.Some? && reply.value.choices.Some? && |reply.value.choices.value| > 0
                        && reply.value.choices.value[0].None?)
            ==> r.error == Exception(Some(EmptyReplyMessage))
  {
    if reply.Some? && reply.value.choices.Some? && |reply.value.choices.value| > 0 then
      match reply.value.choices.value[0]
      case None => Err(NullPointer("read field \"message\"", "\"choice\""))
      case Some(choice) =>
        if choice.message.Some? && choice.message.value.content.Some? then
          Ok(choice.message.value.content.value)
        else Err(Exception(Some(EmptyReplyMessage)))
    else Err(Exception(Some(EmptyReplyMessage)))
  }

  // ---------------------------------------------------------------------------
  // `cleanJsonResponse`, one function per step.

  const ThinkOpen: string := "<think>"
  const ThinkClose: string := "</think>"

  /** Step 1 before the trim: `replaceAll("(?s)<think>.*?</think>", "")`. The
      leftmost `<think>` that has a `</think>` somewhere after it is removed
      together with the first such `</think>` and everything between; the scan
      resumes after the removed span. */
  function RemoveThinkBlocks(s: string): (r: string)
    ensures |r| <= |s|
    ensures !Contains(s, ThinkOpen) ==> r == s
    decreases |s|
  {
    var i := IndexOf(s, ThinkOpen);
    if i == -1 then s
    else
      var j := IndexOf(s[i + |ThinkOpen|..], ThinkClose);
      if j == -1 then s
      else s[..i] + RemoveThinkBlocks(s[i + |ThinkOpen| + j + |ThinkClose|..])
  }

  /** Step 1: remove the reasoning blocks, then trim. */
  function StripThinkBlocks(s: string): (r: string)
    ensures NoOuterSpace(r)
  {
    Trim(RemoveThinkBlocks(s))
  }

  /** Step 2: while a `<think>` is left over (an unclosed block), drop
      everything before the first `{`, if there is one. */
  function SkipUnclosedThink(c: string): (r: string)
    ensures !Contains(c, ThinkOpen) || '{' !in c ==> r == c
    ensures Contains(c, ThinkOpen) && '{' in c ==> r != [] && r[0] == '{'
  {
    if Contains(c, ThinkOpen) then
      var f := IndexOfChar(c, '{');
      if f != -1 then
        TrimKeepsFirst(c[f..]);
        Trim(c[f..])
      else c
    else c
  }

  /** Step 3: the span from the first `{` to the last `}`, when the last `}`
      comes after the first `{`. */
  function IsolateObject(c: string): (r: string)
    ensures var f := IndexOfChar(c, '{'); var l := LastIndexOfChar(c, '}');
            if f != -1 && l > f then r == c[f..l + 1] && r[0] == '{' && r[|r| - 1] == '}'
            else r == c
  {
    var f := IndexOfChar(c, '{');
    var l := LastIndexOfChar(c, '}');
    if f != -1 && l != -1 && l > f then c[f..l + 1] else c
  }

  /** Step 4: a Markdown fence at the very start is unwrapped and the rest
      trimmed; text not starting with a fence is kept. */
  function StripFence(c: string): (r: string)
    ensures !StartsWith(c, Fence) ==> r == c
    ensures StartsWith(c, Fence) ==> NoOuterSpace(r)
  {
    if StartsWith(c, Fence) then Trim(Unfence(c)) else c
  }

  /** Step 5: every `\'` becomes `'`, then the result is trimmed. */
  function Unescape(c: string): (r: string)
    ensures NoOuterSpace(r)
  {
    Trim(Replace(c, "\\'", "'"))
  }

  /** `cleanJsonResponse`. */
  function CleanJsonResponse(response: Option<string>): (r: string)
    ensures response.None? ==> r == "{}"
    ensures NoOuterSpace(r)
  {
    match response
    case None => "{}"
    case Some(s) => Unescape(StripFence(IsolateObject(SkipUnclosedThink(StripThinkBlocks(s)))))
  }

  // ---------------------------------------------------------------------------
  // Properties of the sanitiser.

  /** A reasoning block is removed up to the first `</think>` after its
      `<think>`, and the scan continues after it. */
  lemma RemoveThinkBlock(a: string, b: string, c: string)
    requires !Contains(a, ThinkOpen) && !Contains(b, ThinkClose)
    ensures RemoveThinkBlocks(a + ThinkOpen + b + ThinkClose + c) == a + RemoveThinkBlocks(c)
  {
    var s := a + ThinkOpen + b + ThinkClose + c;
    IndexOfAfter(a, ThinkOpen, b + ThinkClose + c);
    assert s == a + ThinkOpen + (b + ThinkClose + c);
    var rest := s[|a| + |ThinkOpen|..];
    assert rest == b + ThinkClose + c;
    IndexOfAfter(b, ThinkClose, c);
    assert s[..|a|] == a;
    assert s[|a| + |ThinkOpen| + |b| + |ThinkClose|..] == c;
  }

  /** `t` has a `{` somewhere before its last `}`. */
  predicate HasObject(t: string) {
    IndexOfChar(t, '{') != -1 && IndexOfChar(t, '{') < LastIndexOfChar(t, '}')
  }

  /** The span of `t` from its first `{` to its last `}`. */
  function ObjectSpan(t: string): (r: string)
    requires HasObject(t)
    ensures |r| >= 2 && r[0] == '{' && r[|r| - 1] == '}'
  {
    t[IndexOfChar(t, '{')..LastIndexOfChar(t, '}') + 1]
  }

  /** An object surrounded by other text is found again: a slice of `t` from
      at or before its first `{` to at or after its last `}` isolates to the
      span between them. */
  lemma IsolateSlice(t: string, lo: int, hi: int)
    requires HasObject(t)
    requires 0 <= lo <= IndexOfChar(t, '{') && LastIndexOfChar(t, '}') < hi <= |t|
    ensures IsolateObject(t[lo..hi]) == ObjectSpan(t)
  {
    var f := IndexOfChar(t, '{');
    var e := LastIndexOfChar(t, '}') + 1;
    var x := t[lo..hi];
    IndexOfCharInSlice(t, '{', lo, hi);
    LastIndexOfCharInSlice(t, '}', lo, hi);
    assert IndexOfChar(x, '{') == f - lo;
    assert LastIndexOfChar(x, '}') + 1 == e - lo;
    IsolateAt(x, f - lo, e - lo);
    SliceOfSlice(t, lo, hi, f, e);
    assert x[f - lo..e - lo] == t[f..e];
  }

  lemma IsolateAt(c: string, f: int, e: int)
    requires IndexOfChar(c, '{') == f && LastIndexOfChar(c, '}') + 1 == e && 0 <= f < e - 1
    ensures IsolateObject(c) == c[f..e]
  {
  }

  /** Steps 2 and 3 on trimmed text that holds an object and no `<think>`:
      the object span. */
  lemma SpanOfTrimmed(t: string)
    requires HasObject(t) && !Contains(Trim(t), ThinkOpen)
    ensures IsolateObject(SkipUnclosedThink(Trim(t))) == ObjectSpan(t)
  {
    TrimIsSlice(t);
    IsolateSlice(t, TrimFront(t), TrimBack(t));
  }

  /** Step 2 on trimmed text with a leftover `<think>` cuts at the first `{`
      of the untrimmed text. */
  lemma SkipCutsAtBrace(t: string)
    requires IndexOfChar(t, '{') != -1 && Contains(Trim(t), ThinkOpen)
    ensures TrimFront(t) <= IndexOfChar(t, '{') < TrimBack(t)
    ensures SkipUnclosedThink(Trim(t)) == Trim(t[IndexOfChar(t, '{')..TrimBack(t)])
  {
    var f := IndexOfChar(t, '{');
    var o := TrimFront(t);
    var b := TrimBack(t);
    assert o <= f < b by {
      assert !IsJavaSpace(t[f]);
    }
    var x := t[o..b];
    TrimIsSlice(t);
    assert Trim(t) == x;
    IndexOfCharInSlice(t, '{', o, b);
    var g := IndexOfChar(x, '{');
    assert g == f - o;
    SliceOfSlice(t, o, b, f, b);
    assert x[g..] == t[f..b] by {
      assert x[g..] == x[f - o..b - o];
    }
    assert SkipUnclosedThink(x) == Trim(x[g..]);
  }

  /** Cutting at the first `{` and trimming keeps the whole object. */
  lemma SpanOfCut(t: string)
    requires HasObject(t)
    ensures IndexOfChar(t, '{') < TrimBack(t)
    ensures IsolateObject(Trim(t[IndexOfChar(t, '{')..TrimBack(t)])) == ObjectSpan(t)
  {
    var f := IndexOfChar(t, '{');
    var b := TrimBack(t);
    TrimOfSliceFrom(t, f, b, LastIndexOfChar(t, '}'));
    var hi := f + TrimBack(t[f..b]);
    var x := Trim(t[f..b]);
    assert x == t[f..hi];
    IsolateSlice(t, f, hi);
    assert IsolateObject(x) == ObjectSpan(t);
  }

  /** Steps 1 to 3 on text whose think-free form holds an object: the result
      is the span from its first `{` to its last `}`. */
  lemma ObjectSpanAfterStep3(s: string)
    requires HasObject(RemoveThinkBlocks(s))
    ensures IsolateObject(SkipUnclosedThink(StripThinkBlocks(s))) == ObjectSpan(RemoveThinkBlocks(s))
  {
    if Contains(StripThinkBlocks(s), ThinkOpen) {
      SkipCutsAtBrace(RemoveThinkBlocks(s));
      SpanOfCut(RemoveThinkBlocks(s));
    } else {
      SpanOfTrimmed(RemoveThinkBlocks(s));
    }
  }

  /** Steps 4 and 5 leave an object alone apart from unescaping `\'`. */
  lemma FinishObject(x: string)
    requires |x| >= 2 && x[0] == '{' && x[|x| - 1] == '}'
    ensures Unescape(StripFence(x)) == Replace(x, "\\'", "'")
  {
    assert !StartsWith(x, Fence) by { assert x[0] != Fence[0]; }
    ReplaceKeepsFirst(x, "\\'", "'");
    ReplaceKeepsLast(x, "\\'", "'");
  }

  /** If, after the reasoning blocks are removed, some `{` comes before the
      last `}`, the output is that span with `\'` unescaped. */
  lemma CleanObjectSpan(s: string)
    requires HasObject(RemoveThinkBlocks(s))
    ensures CleanJsonResponse(Some(s)) == Replace(ObjectSpan(RemoveThinkBlocks(s)), "\\'", "'")
  {
    var x := ObjectSpan(RemoveThinkBlocks(s));
    FinishObject(x);
    ObjectSpanAfterStep3(s);
  }

  /** Text that starts with `{` and ends with `}`. */
  predicate Braced(r: string) {
    r != [] && r[0] == '{' && r[|r| - 1] == '}'
  }

  /** In that case the output starts with `{` and ends with `}`. */
  lemma CleanObjectBraces(s: string)
    requires HasObject(RemoveThinkBlocks(s))
    ensures Braced(CleanJsonResponse(Some(s)))
  {
    var x := ObjectSpan(RemoveThinkBlocks(s));
    UnescapeKeepsBraces(x);
    CleanObjectSpan(s);
  }

  /** Unescaping keeps an object's outer braces. */
  lemma UnescapeKeepsBraces(x: string)
    requires |x| >= 2 && x[0] == '{' && x[|x| - 1] == '}'
    ensures Braced(Replace(x, "\\'", "'"))
  {
    ReplaceKeepsFirst(x, "\\'", "'");
    ReplaceKeepsLast(x, "\\'", "'");
  }

  /** With an unclosed `<think>` left after step 1 and a `{` present, nothing
      before the first `{` survives: the output starts with `{`. */
  lemma CleanUnclosedThink(s: string)
    requires Contains(StripThinkBlocks(s), ThinkOpen) && '{' in StripThinkBlocks(s)
    ensures var r := CleanJsonResponse(Some(s)); r != [] && r[0] == '{'
  {
    var c2 := SkipUnclosedThink(StripThinkBlocks(s));
    var c3 := IsolateObject(c2);
    assert IndexOfChar(c2, '{') == 0;
    assert c3 != [] && c3[0] == '{';
    assert !StartsWith(c3, Fence) by { assert c3[0] != Fence[0]; }
    ReplaceKeepsFirst(c3, "\\'", "'");
    TrimKeepsFirst(Replace(c3, "\\'", "'"));
  }

  /** A reasoning block at the very start is removed. */
  lemma RemoveLeadingThinkBlock(b: string, c: string)
    requires !Contains(b, ThinkClose)
    ensures RemoveThinkBlocks(ThinkOpen + b + ThinkClose + c) == RemoveThinkBlocks(c)
  {
    NoOccurrenceWithoutFirst([], ThinkOpen);
    RemoveThinkBlock([], b, c);
    assert [] + ThinkOpen == ThinkOpen;
  }

  /** A reasoning block followed by a JSON object (with no `<think>` and no
      backslash in it) cleans to exactly that object. */
  lemma CleanAfterThinkBlock(reasoning: string, json: string)
    requires !Contains(reasoning, ThinkClose)
    requires |json| >= 2 && json[0] == '{' && json[|json| - 1] == '}'
    requires !Contains(json, ThinkOpen) && '\\' !in json
    ensures CleanJsonResponse(Some(ThinkOpen + reasoning + ThinkClose + json)) == json
  {
    PlainObject(json);
    RemoveLeadingThinkBlock(reasoning, json);
    CleanObjectSpan(ThinkOpen + reasoning + ThinkClose + json);
  }

  /** A brace-delimited text with no backslash is its own object span and
      has nothing to unescape. */
  lemma PlainObject(json: string)
    requires |json| >= 2 && json[0] == '{' && json[|json| - 1] == '}' && '\\' !in json
    ensures HasObject(json) && ObjectSpan(json) == json
    ensures Replace(json, "\\'", "'") == json
  {
    assert IndexOfChar(json, '{') == 0;
    assert LastIndexOfChar(json, '}') == |json| - 1;
    assert json[0..|json|] == json;
    NoOccurrenceWithoutFirst(json, "\\'");
  }

  /** Cleaning is not idempotent: `\\'` loses one backslash per pass. */
  lemma CleanTwoBackslashes()
    ensures CleanJsonResponse(Some("\\\\'")) == "\\'"
  {
    var s := "\\\\'";
    var t := "\\'";
    assert RemoveThinkBlocks(s) == s;
    assert !OccursAt(s, t, 0) by { assert s[0..2][1] != t[1]; }
    assert OccursAt(s, t, 1) by { assert s[1..3] == t; }
    assert ReplaceFrom(s, t, "'", 3) == [];
    assert ReplaceFrom(s, t, "'", 1) == "'";
    assert ReplaceFrom(s, t, "'", 0) == [s[0]] + "'";
    assert Replace(s, t, "'") == t;
  }

  lemma CleanOneBackslash()
    ensures CleanJsonResponse(Some("\\'")) == "'"
  {
    assert RemoveThinkBlocks("\\'") == "\\'";
    assert Replace("\\'", "\\'", "'") == "'";
  }

  lemma CleanNotIdempotent()
    ensures CleanJsonResponse(Some(CleanJsonResponse(Some("\\\\'")))) != CleanJsonResponse(Some("\\\\'"))
  {
    CleanTwoBackslashes();
    CleanOneBackslash();
  }

  // ---------------------------------------------------------------------------
  // `analyzeReport` and its fallback.

  const FallbackSummaryLead: string :=
    "I was able to analyze your report, but the AI service did not return the data in the expected format. Error: "
  const FallbackDisclaimerLead: string := "Error while communicating with OpenRouter: "

  /** `createFallbackSummary(error)`: the error text (printed as "null" when
      there is none) ends both the summary and the disclaimer, and every list
      is present and empty. */
  function Fallback(error: Option<string>): (r: ReportSummary)
    ensures r.summary.Some? && r.disclaimer.Some?
    ensures StartsWith(r.summary.value, FallbackSummaryLead)
            && EndsWith(r.summary.value, ValueOf(error))
    ensures r.disclaimer.value == FallbackDisclaimerLead + ValueOf(error)
    ensures r.findings == Some([]) && r.glossary == Some([]) && r.discussionQuestions == Some([])
  {
    var summary := FallbackSummaryLead + ValueOf(error);
    assert summary[..|FallbackSummaryLead|] == FallbackSummaryLead;
    assert summary[|summary| - |ValueOf(error)|..] == ValueOf(error);
    ReportSummary(Some(summary), Some([]), Some([]), Some([]),
                  Some(FallbackDisclaimerLead + ValueOf(error)))
  }

  /** A request with a system and a user message: the shape of the analysis
      request, whatever the prompts are. */
  function AnalysisRequestFor(model: string, system: string, user: string): (q: CompletionRequest)
    ensures q.messages == [WireMessage("system", Some(system)), WireMessage("user", Some(user))]
    ensures q.model == model && q.maxTokens == 4000 && q.reasoningEnabled == Some(true)
    ensures q.responseFormat == Some(map["type" := "json_object"])
  {
    CompletionRequest(
      model,
      [WireMessage("system", Some(system)), WireMessage("user", Some(user))],
      Some(map["type" := "json_object"]),
      4000,
      Some(true))
  }

  /** The analysis request: the shared system prompt, then the report wrapped
      in the user template. */
  function AnalysisRequest(model: string, reportText: string): (q: CompletionRequest)
    ensures q.model == model
    ensures UserMessageCarries(q.messages, reportText)
  {
    var user := BuildAnalysisUserPrompt(reportText);
    AnalysisPromptRoundTrip(reportText);
    var q := AnalysisRequestFor(model, AnalysisSystemPrompt, user);
    SystemThenUser(q.messages, AnalysisSystemPrompt, user, reportText);
    q
  }

  /** The messages are a system message and then a user message whose prompt
      holds `reportText`. */
  predicate UserMessageCarries(messages: seq<WireMessage>, reportText: string) {
    && |messages| == 2 && messages[0].role == "system" && messages[1].role == "user"
    && messages[1].content.Some? && CarriesReport(messages[1].content.value, reportText)
  }

  lemma SystemThenUser(messages: seq<WireMessage>, system: string, user: string, reportText: string)
    requires messages == [WireMessage("system", Some(system)), WireMessage("user", Some(user))]
    requires CarriesReport(user, reportText)
    ensures UserMessageCarries(messages, reportText)
  {
  }

  /** The guard before decoding: the cleaned reply must be non-empty and
      contain a `{`. */
  function CheckJson(cleaned: string): (r: Result<string, Exception>)
    ensures r.Ok? <==> cleaned != [] && '{' in cleaned
    ensures r.Ok? ==> r.value == cleaned
    ensures r.Err? ==> r.error == Exception(Some(NoJsonMessage))
  {
    ContainsChar(cleaned, '{');
    if cleaned == [] || !Contains(cleaned, "{") then Err(Exception(Some(NoJsonMessage)))
    else Ok(cleaned)
  }

  /** `analyzeReport` once the request is built: it never fails. The decoded
      summary is returned only for a reply that has content, whose cleaned
      form passes the guard and is accepted by the decoder; every other case
      gives the fallback carrying the message of what failed. */
  function AnalyzeWith(q: CompletionRequest, call: Transport, decode: Decoder): (r: ReportSummary)
    ensures call(q).Err? ==> r == Fallback(call(q).error.message)
    ensures call(q).Ok? && ExtractText(call(q).value).Err? ==>
              r == Fallback(ExtractText(call(q).value).error.message)
    ensures call(q).Ok? && ExtractText(call(q).value).Ok? ==>
              var cleaned := CleanJsonResponse(Some(ExtractText(call(q).value).value));
              r == if cleaned == [] || '{' !in cleaned then Fallback(Some(NoJsonMessage))
                   else if decode(cleaned).Err? then Fallback(decode(cleaned).error.message)
                   else decode(cleaned).value
  {
    match call(q)
    case Err(e) => Fallback(e.message)
    case Ok(reply) =>
      match ExtractText(reply)
      case Err(e) => Fallback(e.message)
      case Ok(text) =>
        match CheckJson(CleanJsonResponse(Some(text)))
        case Err(e) => Fallback(e.message)
        case Ok(cleaned) =>
          match decode(cleaned)
          case Err(e) => Fallback(e.message)
          case Ok(summary) => summary
  }

  /** `analyzeReport`. */
  function AnalyzeReport(model: string, reportText: string, call: Transport, decode: Decoder)
    : ReportSummary
  {
    AnalyzeWith(AnalysisRequest(model, reportText), call, decode)
  }

  // ---------------------------------------------------------------------------
  // `answerFollowUp`.

  const ApologyLead: string := "Sorry, I encountered an error with the AI service: "

  /** The request's message for a history turn: the role, lowercased; a
      missing role is dereferenced and fails. */
  function HistoryMessage(m: ChatMessage): (r: Result<WireMessage, Exception>)
    ensures m.role.Some? <==> r.Ok?
    ensures r.Ok? ==> r.value == WireMessage(ToLower(m.role.value), m.content)
  {
    match m.role
    case None =>
      Err(NullPointer("invoke \"String.toLowerCase()\"",
                      "the return value of \"com.patientvocate.model.ChatMessage.getRole()\""))
    case Some(role) => Ok(WireMessage(ToLower(role), m.content))
  }

  /** The history turns as request messages, in order, or the failure of the
      first turn without a role. */
  function HistoryMessages(history: seq<ChatMessage>): (r: Result<seq<WireMessage>, Exception>)
    ensures r.Ok? <==> forall i :: 0 <= i < |history| ==> history[i].role.Some?
    ensures r.Ok? ==> |r.value| == |history|
                      && forall i :: 0 <= i < |history| ==> HistoryMessage(history[i]) == Ok(r.value[i])
  {
    if history == [] then Ok([])
    else
      var n := |history| - 1;
      match HistoryMessages(history[..n])
      case Err(e) =>
        assert history[..n][0..] == history[..n];
        Err(e)
      case Ok(front) =>
        match HistoryMessage(history[n])
        case Err(e) => Err(e)
        case Ok(last) => Ok(front + [last])
  }

  /** Once a prefix of the history fails, the whole history fails the same
      way. */
  lemma {:induction false} HistoryFailureStays(history: seq<ChatMessage>, n: nat)
    requires n <= |history| && HistoryMessages(history[..n]).Err?
    ensures HistoryMessages(history) == HistoryMessages(history[..n])
    decreases |history| - n
  {
    if n < |history| {
      assert history[..n + 1][..n] == history[..n];
      assert HistoryMessages(history[..n + 1]) == HistoryMessages(history[..n]);
      HistoryFailureStays(history, n + 1);
    } else {
      assert history[..n] == history;
    }
  }

  /** The message list of a follow-up: the system prompt, the history turns,
      the question. */
  function FollowUpMessages(system: string, turns: seq<WireMessage>, question: string)
    : (ms: seq<WireMessage>)
    ensures |ms| == |turns| + 2
    ensures ms[0] == WireMessage("system", Some(system))
    ensures ms[1..|ms| - 1] == turns
    ensures ms[|ms| - 1] == WireMessage("user", Some(question))
  {
    [WireMessage("system", Some(system))] + turns + [WireMessage("user", Some(question))]
  }

  /** The follow-up request for a given system prompt, or the failure of a
      history turn without a role. A missing history counts as an empty one. */
  function FollowUpRequestFor(model: string, system: string, question: string,
                              history: Option<seq<ChatMessage>>)
    : (r: Result<CompletionRequest, Exception>)
    ensures history.None? ==> r.Ok? && r.value.messages == FollowUpMessages(system, [], question)
    ensures history.Some? ==> (r.Ok? <==> HistoryMessages(history.value).Ok?)
    ensures history.Some? && r.Ok? ==>
              r.value.messages == FollowUpMessages(system, HistoryMessages(history.value).value, question)
    ensures history.Some? && r.Err? ==> r.error == HistoryMessages(history.value).error
    ensures r.Ok? ==> r.value.model == model && r.value.maxTokens == 1000
                      && r.value.responseFormat.None? && r.value.reasoningEnabled.None?
  {
    var turns := if history.None? then Ok([]) else HistoryMessages(history.value);
    match turns
    case Err(e) => Err(e)
    case Ok(ms) => Ok(CompletionRequest(model, FollowUpMessages(system, ms, question), None, 1000, None))
  }

  /** The layout of a follow-up request: system prompt first, each history
      turn in order with its role lowercased and its content as given, the
      question last. */
  lemma FollowUpRequestShape(model: string, system: string, question: string,
                             history: seq<ChatMessage>)
    requires forall i :: 0 <= i < |history| ==> history[i].role.Some?
    ensures var r := FollowUpRequestFor(model, system, question, Some(history));
            && r.Ok?
            && var ms := r.value.messages;
            && |ms| == |history| + 2
            && ms[0] == WireMessage("system", Some(system))
            && (forall i :: 0 <= i < |history| ==>
                  ms[i + 1] == WireMessage(ToLower(history[i].role.value), history[i].content))
            && ms[|ms| - 1] == WireMessage("user", Some(question))
  {
    var ms := FollowUpRequestFor(model, system, question, Some(history)).value.messages;
    var turns := HistoryMessages(history).value;
    forall i | 0 <= i < |history|
      ensures ms[i + 1] == WireMessage(ToLower(history[i].role.value), history[i].content)
    {
      assert ms[i + 1] == ms[1..|ms| - 1][i];
    }
  }

  /** `answerFollowUp` with a given system prompt: the reply text, or the
      apology with the message of whatever failed, a history turn without a
      role included. */
  function FollowUpAnswerFor(model: string, system: string, question: string,
                             history: Option<seq<ChatMessage>>, call: Transport)
    : (answer: string)
    ensures var q := FollowUpRequestFor(model, system, question, history);
            && (q.Err? ==> answer == Describe(ApologyLead, q.error))
            && (q.Ok? && call(q.value).Err? ==> answer == Describe(ApologyLead, call(q.value).error))
            && (q.Ok? && call(q.value).Ok? && ExtractText(call(q.value).value).Err?
                ==> answer == Describe(ApologyLead, ExtractText(call(q.value).value).error))
            && (q.Ok? && call(q.value).Ok? && ExtractText(call(q.value).value).Ok?
                ==> answer == ExtractText(call(q.value).value).value)
  {
    match FollowUpRequestFor(model, system, question, history)
    case Err(e) => Describe(ApologyLead, e)
    case Ok(q) =>
      match call(q)
      case Err(e) => Describe(ApologyLead, e)
      case Ok(reply) =>
        match ExtractText(reply)
        case Err(e) => Describe(ApologyLead, e)
        case Ok(text) => text
  }

  /** Every failure is answered with the apology; only a reply that has
      content is passed on. */
  lemma FollowUpApologises(model: string, system: string, question: string,
                           history: Option<seq<ChatMessage>>, call: Transport)
    ensures var q := FollowUpRequestFor(model, system, question, history);
            var a := FollowUpAnswerFor(model, system, question, history, call);
            !(q.Ok? && call(q.value).Ok? && ExtractText(call(q.value).value).Ok?) ==>
              StartsWith(a, ApologyLead)
  {
    var q := FollowUpRequestFor(model, system, question, history);
    var a := FollowUpAnswerFor(model, system, question, history, call);
    if !(q.Ok? && call(q.value).Ok? && ExtractText(call(q.value).value).Ok?) {
      assert a[..|ApologyLead|] == ApologyLead;
    }
  }

  /** `answerFollowUp` as written: the message list is built by appending to
      it in a loop over the history; the system prompt is the follow-up
      template filled with the report and the previous summary. */
  method AnswerFollowUp(model: string, reportText: string, analysisSummary: Option<string>,
                        question: string, history: Option<seq<ChatMessage>>, call: Transport)
    returns (answer: string)
    ensures answer == FollowUpAnswerFor(model, BuildFollowUpSystemPrompt(reportText, analysisSummary),
                                        question, history, call)
  {
    var system := BuildFollowUpSystemPrompt(reportText, analysisSummary);
    answer := AnswerWith(model, system, question, history, call);
  }

  /** The body of `answerFollowUp` once the system prompt is built. */
  method AnswerWith(model: string, system: string, question: string,
                    history: Option<seq<ChatMessage>>, call: Transport)
    returns (answer: string)
    ensures answer == FollowUpAnswerFor(model, system, question, history, call)
  {
    var turns: seq<WireMessage> := [];
    if history.Some? {
      var h := history.value;
      var i := 0;
      while i < |h|
        invariant 0 <= i <= |h|
        invariant HistoryMessages(h[..i]) == Ok(turns)
      {
        assert h[..i + 1][..i] == h[..i];
        match h[i].role
        case None =>
          HistoryFailureStays(h, i + 1);
          answer := Describe(ApologyLead, HistoryMessage(h[i]).error);
          return;
        case Some(role) =>
          turns := turns + [WireMessage(ToLower(role), h[i].content)];
        i := i + 1;
      }
      assert h[..i] == h;
    }
    var request := CompletionRequest(model, FollowUpMessages(system, turns, question), None, 1000, None);
    var reply := call(request);
    match reply
    case Err(e) =>
      answer := Describe(ApologyLead, e);
    case Ok(body) =>
      match ExtractText(body)
      case Err(e) => answer := Describe(ApologyLead, e);
      case Ok(text) => answer := text;
  }

  // ---------------------------------------------------------------------------
  // `isAvailable`.

  /** An API key is usable when it is set, non-empty and not the
      `YOUR_...` placeholder of the sample configuration. */
  function IsAvailable(apiKey: Option<string>): (up: bool)
    ensures up ==> apiKey.Some? && |apiKey.value| >= 1 && !StartsWith(apiKey.value, "YOUR_")
    ensures apiKey.Some? && apiKey.value != [] && !StartsWith(apiKey.value, "YOUR_") ==> up
    ensures apiKey.Some? && 1 <= |apiKey.value| < |"YOUR_"| ==> up
    ensures apiKey.Some? && apiKey.value != [] && apiKey.value[0] != 'Y' ==> up
  {
    apiKey.Some? && apiKey.value != [] && !StartsWith(apiKey.value, "YOUR_")
  }

  /** The API keys that the first test rejects: a missing or empty key, and
      the placeholder of the sample configuration with anything after it. */
  lemma PlaceholderKeyUnavailable(suffix: string)
    ensures !IsAvailable(None) && !IsAvailable(Some(""))
    ensures !IsAvailable(Some("YOUR_" + suffix))
  {
    assert ("YOUR_" + suffix)[..|"YOUR_"|] == "YOUR_";
  }

  // ---------------------------------------------------------------------------
  // The provider.

  /** OpenRouterAIService as an `AIService`: named "openrouter", available
      when its key is usable, keeping both image defaults. Its analysis never
      fails and its follow-up answer is never null. */
  function Service(apiKey: Option<string>, model: string, call: Transport, decode: Decoder): (p: Provider)
    ensures p.name == "openrouter" && !p.supportsImages
    ensures p.available <==> IsAvailable(apiKey)
    ensures forall t :: p.analyzeReport(t) == Ok(AnalyzeReport(model, t, call, decode))
    ensures forall r, s, q, h :: p.answerFollowUp(r, s, q, h) ==
              Ok(Some(FollowUpAnswerFor(model, BuildFollowUpSystemPrompt(r, s), q, h, call)))
    ensures forall f :: p.analyzeImage(f) == Err(ImageRejection("openrouter"))
  {
    TextOnlyProvider("openrouter", IsAvailable(apiKey),
                     t => Ok(AnalyzeReport(model, t, call, decode)),
                     (r, s, q, h) => Ok(Some(FollowUpAnswerFor(model, BuildFollowUpSystemPrompt(r, s), q, h, call))))
  }
}
