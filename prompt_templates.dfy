/** The prompt texts shared by both providers (AIPromptTemplates). Each
    template is kept as the constant pieces around its `%s` placeholders, so
    `String.format` becomes concatenation. */
module PromptTemplates {
  import opened Wrappers
  import opened Strings

  /** The long passages of prose inside the templates. They are reached
      through `PassageText`, so that a proof about where the placeholders are
      filled in never has to look at the prose itself. */
  datatype Passage =
    | SystemInstructions  // the whole analysis system prompt
    | AnalysisRequest     // the opening paragraph of the analysis user prompt
    | AssistantRole       // the opening paragraph of the follow-up prompt
    | OperatingRules      // the closing rules of the follow-up prompt

  function PassageText(p: Passage): string {
    match p
    case SystemInstructions =>
      "You are PatientVocate, a specialized medical report "
      + "analyzer and education assistant. Your mission is to bridge "
      + "the gap between complex medical data and patient understanding.\n"
      + "\n"
      + "CRITICAL ROLE LIMITS:\n"
      + "- You are NOT a healthcare professional.\n"
      + "- You DO NOT diagnose conditions (e.g., never say \"You have "
      + "anemia\").\n"
      + "- You DO NOT recommend treatments or medications.\n"
      + "- You DO NOT provide medical advice or prognostications.\n"
      + "- ALWAYS use phrases like \"This value may be worth "
      + "discussing with your doctor\" or   \"Your provider can "
      + "explain how this result fits your health history.\"\n"
      + "\n"
      + "ANALYSIS GUIDELINES:\n"
      + "1. TONE: Calm, objective, yet supportive. Reduce anxiety "
      + "through clear explanation.\n"
      + "2. LANGUAGE: 8th-grade reading level. Avoid jargon unless "
      + "defined in the glossary.\n"
      + "3. CATEGORIZATION:\n"
      + "   - NORMAL: Within the provided reference range.\n"
      + "   - BORDERLINE: On the edge of the range or slightly outside.\n"
      + "   - ABNORMAL: Significantly outside the range.\n"
      + "   - NOT SPECIFIED: If no reference range is provided in "
      + "the text.\n"
      + "4. EXPLANATIONS: For each test, explain:\n"
      + "   - What it measures (in simple terms).\n"
      + "   - Why it's performed.\n"
      + "   - What a result outside the range might generally "
      + "indicate (without diagnosing).\n"
      + "\n"
      + "OUTPUT FORMAT:\n"
      + "You must output ONLY valid JSON.\n"
      + "The very first character of your response MUST be '{' and "
      + "the very last character MUST be '}'.\n"
      + "DO NOT include markdown code blocks (```json).\n"
      + "DO NOT include any thinking process, preamble, or notes "
      + "outside the JSON. All educational descriptions must be "
      + "INSIDE the JSON fields.\n"
      + "\n"
      + "The response must strictly adhere to this schema:\n"
      + "{\n"
      + "  \"summary\": \"3-5 sentences providing an educational "
      + "overview of the report's general focus and findings. "
      + "Maintain a professional yet reassuring tone.\",\n"
      + "  \"findings\": [\n"
      + "    {\n"
      + "      \"testName\": \"Exact name of the test parameter\",\n"
      + "      \"value\": \"Value + unit (e.g., '14.2 g/dL')\",\n"
      + "      \"referenceRange\": \"The range provided (e.g., '12.0 - "
      + "16.0'), or 'None provided'\",\n"
      + "      \"status\": \"NORMAL | BORDERLINE | ABNORMAL | NOT "
      + "SPECIFIED\",\n"
      + "      \"explanation\": \"Clear explanation of what this test "
      + "is and what the result means for a layperson. Keep it to "
      + "2-3 sentences.\"\n"
      + "    }\n"
      + "  ],\n"
      + "  \"glossary\": [\n"
      + "    {\n"
      + "      \"term\": \"Complex medical term present in the report\",\n"
      + "      \"definition\": \"Simple, one-sentence definition.\"\n"
      + "    }\n"
      + "  ],\n"
      + "  \"discussionQuestions\": [\n"
      + "    {\n"
      + "      \"question\": \"A clear, actionable question for the "
      + "doctor visit.\",\n"
      + "      \"context\": \"Briefly explain why this question is "
      + "important based on the specific results.\"\n"
      + "    }\n"
      + "  ],\n"
      + "  \"disclaimer\": \"This information is for educational "
      + "purposes only and is not a medical diagnosis. Only a "
      + "healthcare professional can interpret your results in the "
      + "context of your medical history.\"\n"
      + "}\n"
    case AnalysisRequest =>
      "Please perform a detailed educational analysis of the "
      + "following medical lab report. Extract all findings, "
      + "categorize them, explain the medical terminology, and "
      + "prepare specific questions for a clinical consultation.\n"
    case AssistantRole =>
      "You are PatientVocate, an educational assistant helping a "
      + "patient understand their lab results. You have already "
      + "provided an initial analysis, and the patient is now asking "
      + "follow-up questions.\n"
    case OperatingRules =>
      "STRICT OPERATING RULES:\n"
      + "1. SCOPE: Base your answers ONLY on the provided lab report "
      + "text.\n"
      + "2. NON-DIAGNOSTIC: Never tell a patient they HAVE a "
      + "condition. Use educational    phrasing like \"This result is "
      + "often seen when...\" or \"A doctor might look at    this in "
      + "relation to...\".\n"
      + "3. NO RECOMMENDATIONS: Do not suggest treatments, "
      + "supplements, or medications.\n"
      + "4. LANGUAGE: Simple, empathetic, and clear. Avoid complex "
      + "medical terms without    immediate explanation.\n"
      + "5. OUT OF SCOPE: If a question cannot be answered by the "
      + "report, say: \"I don't see    information about that in this "
      + "specific report. It would be best to ask your    doctor "
      + "about this directly.\"\n"
      + "6. CONCISENESS: Keep responses to 2-4 sentences unless the "
      + "patient explicitly    asks for a detailed explanation.\n"
      + "\n"
      + "Respond in plain text. Maintain a helpful and professional "
      + "educational tone.\n"
  }

  /** The analysis instruction; both providers send it unmodified. */
  const AnalysisSystemPrompt: string := PassageText(SystemInstructions)

  /** The analysis user prompt before and after the report text. */
  const AnalysisUserPrefix: string :=
    PassageText(AnalysisRequest)
    + "\n"
    + "LAB REPORT TEXT:\n"
    + "---\n"
  const AnalysisUserSuffix: string :=
    "\n"
    + "---\n"
    + "\n"
    + "Provide the analysis in the requested JSON format.\n"

  /** A format string with two `%s` placeholders: the text before the
      first, between the two, and after the second. */
  datatype Template = Template(opening: string, between: string, closing: string)

  /** The follow-up system prompt template: the report text goes into the
      lab-report section and the previous analysis into the section after it. */
  const FollowUpOpening: string :=
    PassageText(AssistantRole)
    + "\n"
    + "CONTEXT - LAB REPORT:\n"
    + "---\n"
  const FollowUpBetween: string :=
    "\n"
    + "---\n"
    + "\n"
    + "CONTEXT - PREVIOUS ANALYSIS:\n"
    + "---\n"
  const FollowUpClosing: string :=
    "\n"
    + "---\n"
    + "\n"
    + PassageText(OperatingRules)
  const FollowUpTemplate: Template := Template(FollowUpOpening, FollowUpBetween, FollowUpClosing)

  /** Substituted when there is no previous analysis. */
  const NoPriorAnalysis: string := "No prior analysis available."

  /** Where the report text starts inside an analysis user prompt. */
  const AnalysisTextStart: nat := |AnalysisUserPrefix|

  /** `buildAnalysisUserPrompt`: the report text is inserted verbatim, once,
      between the fixed leading and trailing parts of the template. */
  function BuildAnalysisUserPrompt(reportText: string): (p: string)
    ensures StartsWith(p, AnalysisUserPrefix) && EndsWith(p, AnalysisUserSuffix)
    ensures |p| == |AnalysisUserPrefix| + |reportText| + |AnalysisUserSuffix|
    ensures p[AnalysisTextStart..AnalysisTextStart + |reportText|] == reportText
  {
    AnalysisUserPrefix + reportText + AnalysisUserSuffix
  }

  /** The report text read back out of an analysis user prompt. */
  function AnalysisReportText(p: string): string
    requires |AnalysisUserPrefix| + |AnalysisUserSuffix| <= |p|
  {
    p[AnalysisTextStart..|p| - |AnalysisUserSuffix|]
  }

  /** Building the prompt and reading the text back out gives the text again,
      so distinct report texts give distinct prompts. */
  lemma AnalysisPromptRoundTrip(reportText: string)
    ensures AnalysisReportText(BuildAnalysisUserPrompt(reportText)) == reportText
  {
  }

  /** `p` is an analysis user prompt whose report text is `reportText`. */
  predicate CarriesReport(p: string, reportText: string) {
    |AnalysisUserPrefix| + |AnalysisUserSuffix| <= |p| && AnalysisReportText(p) == reportText
  }

  lemma AnalysisPromptInjective(a: string, b: string)
    requires BuildAnalysisUserPrompt(a) == BuildAnalysisUserPrompt(b)
    ensures a == b
  {
    AnalysisPromptRoundTrip(a);
    AnalysisPromptRoundTrip(b);
  }

  /** The report text is framed by the two `---` delimiter lines. */
  lemma AnalysisTextBetweenDelimiters(reportText: string)
    ensures var p := BuildAnalysisUserPrompt(reportText);
            var i := AnalysisTextStart;
            && p[i - 4..i] == "---\n"
            && p[i..i + |reportText|] == reportText
            && p[i + |reportText|..i + |reportText| + 4] == "\n---"
  {
    var p := BuildAnalysisUserPrompt(reportText);
    var i := AnalysisTextStart;
    assert p[i - 4..i] == AnalysisUserPrefix[i - 4..];
    assert p[i + |reportText|..i + |reportText| + 4] == AnalysisUserSuffix[..4];
  }

  /** The summary text placed in the follow-up prompt: the previous analysis,
      or the sentinel when there is none. An empty summary is kept. */
  function SummaryOrSentinel(analysisSummary: Option<string>): (r: string)
    ensures analysisSummary.None? ==> r == NoPriorAnalysis
    ensures analysisSummary.Some? ==> r == analysisSummary.value
  {
    analysisSummary.GetOr(NoPriorAnalysis)
  }

  /** `String.format(t, x, y)`: both arguments inserted verbatim. */
  function Fill(t: Template, x: string, y: string): (p: string)
    ensures StartsWith(p, t.opening + x + t.between + y)
    ensures EndsWith(p, t.closing)
    ensures |p| == |t.opening| + |x| + |t.between| + |y| + |t.closing|
  {
    var lead := t.opening + x + t.between + y;
    assert (lead + t.closing)[..|lead|] == lead;
    assert (lead + t.closing)[|lead|..] == t.closing;
    lead + t.closing
  }

  /** Where the two arguments and the fixed parts sit in a filled template. */
  lemma FillLayout(t: Template, x: string, y: string)
    ensures var p := Fill(t, x, y);
            var i := |t.opening|;
            var j := i + |x| + |t.between|;
            && |p| == j + |y| + |t.closing|
            && StartsWith(p, t.opening)
            && p[i..i + |x|] == x
            && p[i + |x|..j] == t.between
            && p[j..j + |y|] == y
            && p[j + |y|..] == t.closing
  {
    var p := Fill(t, x, y);
    var i := |t.opening|;
    var j := i + |x| + |t.between|;
    assert p == t.opening + x + t.between + y + t.closing;
    assert p[..i] == t.opening;
    assert p[j + |y|..] == t.closing;
  }

  /** A filled template determines both arguments once the length of the
      first is known; with the same first argument, the second is determined. */
  lemma FillInjective(t: Template, x1: string, y1: string, x2: string, y2: string)
    requires Fill(t, x1, y1) == Fill(t, x2, y2)
    requires |x1| == |x2|
    ensures x1 == x2 && y1 == y2
  {
    FillLayout(t, x1, y1);
    FillLayout(t, x2, y2);
  }

  /** `buildFollowUpSystemPrompt`: the report text fills the first
      placeholder and the previous analysis, or the sentinel, the second. */
  function BuildFollowUpSystemPrompt(reportText: string, analysisSummary: Option<string>): (p: string)
    ensures StartsWith(p, FollowUpTemplate.opening + reportText + FollowUpTemplate.between
                          + SummaryOrSentinel(analysisSummary))
    ensures EndsWith(p, FollowUpTemplate.closing)
    ensures |p| == |FollowUpTemplate.opening| + |reportText| + |FollowUpTemplate.between|
                   + |SummaryOrSentinel(analysisSummary)| + |FollowUpTemplate.closing|
  {
    var t := FollowUpTemplate;
    var y := SummaryOrSentinel(analysisSummary);
    var p := Fill(t, reportText, y);
    assert StartsWith(p, t.opening + reportText + t.between + y) && EndsWith(p, t.closing);
    p
  }

  /** The report text sits in the lab-report section and the previous
      analysis in the section after it, each right after its heading. */
  lemma FollowUpSections()
    ensures EndsWith(FollowUpOpening, "CONTEXT - LAB REPORT:\n---\n")
    ensures EndsWith(FollowUpBetween, "CONTEXT - PREVIOUS ANALYSIS:\n---\n")
  {
  }

  /** A missing summary is substituted by the sentinel text, while an empty
      summary is substituted as it is. */
  lemma SentinelOnlyForMissing()
    ensures SummaryOrSentinel(None) == SummaryOrSentinel(Some(NoPriorAnalysis))
    ensures SummaryOrSentinel(Some("")) != SummaryOrSentinel(None)
  {
  }

  /** Different second arguments give different filled templates. */
  lemma FillDistinct(t: Template, x: string, y1: string, y2: string)
    requires y1 != y2
    ensures Fill(t, x, y1) != Fill(t, x, y2)
  {
    if Fill(t, x, y1) == Fill(t, x, y2) {
      FillInjective(t, x, y1, x, y2);
    }
  }

  /** For one report text, the follow-up prompt determines the summary text
      that was substituted into it. */
  lemma FollowUpSummaryDetermined(reportText: string, s1: Option<string>, s2: Option<string>)
    requires BuildFollowUpSystemPrompt(reportText, s1) == BuildFollowUpSystemPrompt(reportText, s2)
    ensures SummaryOrSentinel(s1) == SummaryOrSentinel(s2)
  {
    FillInjective(FollowUpTemplate, reportText, SummaryOrSentinel(s1), reportText, SummaryOrSentinel(s2));
  }
}
