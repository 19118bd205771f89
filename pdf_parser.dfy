/** The part of PDFParserService that the orchestrator uses: whether an
    upload is a PDF, and what becomes of the text that PDFBox extracts.
    Loading and parsing the document are not part of this model. */
module PdfParser {
  import opened Wrappers
  import opened Strings
  import opened Domain

  /** `isPDF`: the content type is exactly `application/pdf` (the comparison
      keeps case), or the lowercased file name ends with `.pdf`. */
  function IsPdf(file: MultipartFile): (b: bool)
    ensures file.contentType == Some("application/pdf") ==> b
    ensures file.contentType != Some("application/pdf") ==>
              (b <==> file.originalFilename.Some? && EndsWith(ToLower(file.originalFilename.value), ".pdf"))
  {
    || (file.contentType.Some? && file.contentType.value == "application/pdf")
    || (file.originalFilename.Some? && EndsWith(ToLower(file.originalFilename.value), ".pdf"))
  }

  /** Unlike the image test, the content type is case-sensitive. */
  lemma PdfTypeKeepsCase(isEmpty: bool)
    ensures !IsPdf(MultipartFile(Some("APPLICATION/PDF"), None, isEmpty))
    ensures IsPdf(MultipartFile(None, Some("Report.PDF"), isEmpty))
  {
    assert ToLower("Report.PDF") == "report.pdf";
    assert "report.pdf"[6..] == ".pdf";
  }

  /** The name test ignores case for every name. */
  lemma PdfNameIgnoresCase(contentType: Option<string>, name: string, isEmpty: bool)
    ensures IsPdf(MultipartFile(contentType, Some(name), isEmpty))
            <==> IsPdf(MultipartFile(contentType, Some(ToLower(name)), isEmpty))
  {
    ToLowerIdempotent(name);
  }

  /** What reading the PDF gave: the stripper's text (which may be null), a
      checked exception (the document could not be read) or a runtime
      exception. */
  datatype PdfRead =
    | Stripped(text: Option<string>)
    | ReadFailure(e: Exception)
    | RuntimeFailure(e: Exception)

  const NoTextMessage: string :=
    "Could not extract text from PDF. The file may be scanned/image-based. Try uploading an image (JPG/PNG) instead for OCR processing."
  const ReadFailureLead: string := "Failed to read PDF file: "

  /** `extractText`: text that is null or blank is refused; other text is
      trimmed. A runtime exception passes unchanged and a checked one is
      wrapped. */
  function ExtractText(read: PdfRead): (r: Result<string, Exception>)
    ensures read.Stripped? && (read.text.None? || IsJavaBlank(read.text.value)) ==>
              r == Err(Exception(Some(NoTextMessage)))
    ensures read.Stripped? && read.text.Some? && !IsJavaBlank(read.text.value) ==>
              r.Ok? && r.value != [] && NoOuterSpace(r.value) && r.value == Trim(read.text.value)
    ensures read.ReadFailure? ==>
              r.Err? && r.error.message == Some(Describe(ReadFailureLead, read.e))
    ensures read.RuntimeFailure? ==> r == Err(read.e)
    ensures r.Ok? ==> read.Stripped?
  {
    match read
    case Stripped(text) =>
      if text.None? || Trim(text.value) == [] then Err(Exception(Some(NoTextMessage)))
      else Ok(Trim(text.value))
    case ReadFailure(e) => Err(Exception(Some(Describe(ReadFailureLead, e))))
    case RuntimeFailure(e) => Err(e)
  }

  /** Extracted text comes back as is when it has no outer whitespace, and
      never empty. */
  lemma ExtractKeepsTrimmedText(text: string)
    requires text != [] && NoOuterSpace(text)
    ensures ExtractText(Stripped(Some(text))) == Ok(text)
  {
    assert !IsJavaSpace(text[0]);
  }
}
