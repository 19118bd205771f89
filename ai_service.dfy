/** The provider interface (`AIService`): what every AI provider offers, and
    the two capabilities that have defaults. A provider is a value whose
    operations are functions; a shipped provider builds it from its own
    module's definitions. */
module AIService {
  import opened Wrappers
  import opened Strings
  import opened Domain

  /** `answerFollowUp(reportText, analysisSummary, question, history)`: the
      answer (which may be null) or the exception it lets out. */
  type FollowUp = (string, Option<string>, string, Option<seq<ChatMessage>>) -> Result<Option<string>, Exception>

  /** An AI provider. `available` is what `isAvailable()` answers. */
  datatype Provider = Provider(
    name: string,
    available: bool,
    supportsImages: bool,
    analyzeReport: string -> Result<ReportSummary, Exception>,
    answerFollowUp: FollowUp,
    analyzeImage: MultipartFile -> Result<ReportSummary, Exception>)

  const ImageRejectionLead: string := "Image analysis not supported by this provider ("

  /** The `UnsupportedOperationException` of the default `analyzeImage`: it
      names the provider. */
  function ImageRejection(name: string): (e: Exception)
    ensures e.message.Some? && StartsWith(e.message.value, ImageRejectionLead)
    ensures |e.message.value| == |ImageRejectionLead| + |name| + 1
    ensures e.message.value[|ImageRejectionLead|..|e.message.value| - 1] == name
    ensures EndsWith(e.message.value, ")")
  {
    var m := ImageRejectionLead + name + ")";
    assert m[..|ImageRejectionLead|] == ImageRejectionLead;
    assert m[|ImageRejectionLead|..|m| - 1] == name;
    assert m[|m| - 1..] == ")";
    Exception(Some(m))
  }

  /** Two providers with different names are rejected with different
      messages. */
  lemma ImageRejectionNamesProvider(a: string, b: string)
    requires a != b
    ensures ImageRejection(a) != ImageRejection(b)
  {
    var ma := ImageRejection(a).message.value;
    var mb := ImageRejection(b).message.value;
    assert ma[|ImageRejectionLead|..|ma| - 1] == a;
    assert mb[|ImageRejectionLead|..|mb| - 1] == b;
  }

  /** A provider that keeps both defaults: text only, and every image is
      rejected with the message naming it. */
  function TextOnlyProvider(name: string, available: bool,
                            analyzeReport: string -> Result<ReportSummary, Exception>,
                            answerFollowUp: FollowUp)
    : (p: Provider)
    ensures p.name == name && p.available == available && !p.supportsImages
    ensures forall f :: p.analyzeImage(f) == Err(ImageRejection(name))
    ensures forall t :: p.analyzeReport(t) == analyzeReport(t)
    ensures forall r, s, q, h :: p.answerFollowUp(r, s, q, h) == answerFollowUp(r, s, q, h)
  {
    Provider(name, available, false, analyzeReport, answerFollowUp, f => Err(ImageRejection(name)))
  }
}
