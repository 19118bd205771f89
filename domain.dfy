/** The value types exchanged between the providers, the orchestrator and the
    web front end (the field-bag classes of the backend's model package and the
    front end's report model). Every reference that Jackson may leave null when
    a JSON field is missing is an `Option`. */
module Domain {
  import opened Wrappers
  import opened Strings

  /** One lab value. `status` is whatever text the model produced: the source
      documents NORMAL, BORDERLINE and ABNORMAL but never checks it. Like
      every other field, it is null when the model's JSON leaves it out. */
  datatype Finding = Finding(
    testName: Option<string>,
    value: Option<string>,
    referenceRange: Option<string>,
    status: Option<string>,
    explanation: Option<string>)

  /** A glossary entry; both texts are null when the JSON leaves them out. */
  datatype GlossaryEntry = GlossaryEntry(term: Option<string>, definition: Option<string>)

  /** A question for the clinician and its context, either of which may be
      null. */
  datatype DiscussionQuestion = DiscussionQuestion(question: Option<string>, context: Option<string>)

  /** The structured result of an analysis. Any field may be absent in a
      decoded value, because the decoder leaves omitted JSON fields null. */
  datatype ReportSummary = ReportSummary(
    summary: Option<string>,
    findings: Option<seq<Finding>>,
    glossary: Option<seq<GlossaryEntry>>,
    discussionQuestions: Option<seq<DiscussionQuestion>>,
    disclaimer: Option<string>)

  /** A turn of a conversation as the backend receives it: role "user" or
      "assistant" and its text, either of which JSON may leave out. */
  datatype ChatMessage = ChatMessage(role: Option<string>, content: Option<string>)

  /** An uploaded file, as far as the core reads it: the declared content
      type and the original file name (either may be null) and whether it is
      empty. Its bytes only reach the PDF and OCR libraries. */
  datatype MultipartFile = MultipartFile(
    contentType: Option<string>,
    originalFilename: Option<string>,
    isEmpty: bool)

  /** A thrown Java exception, reduced to what the core reads of it:
      `getMessage()`, which may be null. */
  datatype Exception = Exception(message: Option<string>)

  /** The JSON decoder for a `ReportSummary`: the decoded value, or the
      exception thrown for text it cannot map. */
  type Decoder = string -> Result<ReportSummary, Exception>

  /** `prefix + e.getMessage()` in Java. */
  function Describe(prefix: string, e: Exception): (r: string)
    ensures e.message.Some? ==> r == prefix + e.message.value
    ensures e.message.None? ==> r == prefix + "null"
  {
    prefix + ValueOf(e.message)
  }

  /** The NullPointerException the JVM raises when `action` is attempted on
      the null value `culprit`, with the detail message of JEP 358 (the default
      since Java 15; local variable names as recorded by `javac -g`). */
  function NullPointer(action: string, culprit: string): (e: Exception)
    ensures e.message.Some?
    ensures StartsWith(e.message.value, "Cannot " + action)
  {
    var m := "Cannot " + action + " because " + culprit + " is null";
    assert m[..|"Cannot " + action|] == "Cannot " + action;
    Exception(Some(m))
  }
}
