# PatientVocate core, modelled in Dafny

PatientVocate explains medical lab reports to patients. A Spring Boot backend
takes a PDF, an image or plain text. It extracts the report text, asks an AI
provider for a structured analysis, and answers follow-up questions about the
report. An Angular front end uploads the report, shows the analysis and holds
the follow-up chat.

This project models the following parts and proves properties of them.

- **Providers (`OpenRouter`, `Ollama`).**
  - How each provider builds its requests and reads the replies.
  - How it cleans model output before JSON decoding: think-block removal,
    isolating the outermost braces, code fences and unescaping.
  - The fallback summary it returns when decoding fails.
  - Its follow-up answer.
  - Its availability test.
- **The prompt templates (`PromptTemplates`).** Both `String.format` templates
  and what they guarantee about where the report text sits.
- **The provider interface (`AIService`).** The default `supportsImages` and
  `analyzeImage`.
- **The orchestrator (`Reports`).** This covers:
  - the provider registry keyed by name, where a later provider replaces an
    earlier one under the same name;
  - the case-insensitive lookup, with the `gemini` alias and the `openrouter`
    default;
  - text and file analysis with their error texts;
  - the preference for direct image analysis;
  - the follow-up delegation;
  - the availability flag.
- **File type detection (`OcrService`, `PdfParser`).** The image and PDF type
  predicates, and the outcomes of PDF text extraction.
- **Response objects (`Responses`).** The two response classes, with their
  setters and factories.
- **The REST layer (`Controller`, `ExceptionHandler`).** The endpoints' status
  codes, the `ollama` query default, the health payload, and the three
  exception handlers.
- **The front end.** The upload zone, the follow-up chat, the home page, the
  results dashboard's counts and the finding card's classes and icon.

The decoded analysis is the `Domain.ReportSummary` datatype, and each of its
findings is a `Domain.Finding` whose five fields are optional texts.

Pure code is modelled as functions and lemmas. Mutable things are classes:
the orchestrator, the response DTOs, the controller and the Angular
components. Their methods state their whole new state. The loops in the
orchestrator's constructor and in both providers' follow-up history are
modelled as `while` loops with invariants.

Java's `null` is modelled as `Option`. A thrown exception is modelled as the
`Err` of a `Result` that carries `getMessage()`. Calls that leave the process
become function parameters:

- the HTTP transport;
- the Jackson decoder;
- PDFBox and Tesseract.

String operations follow Java and JavaScript:

- `trim()` uses Java's code-point threshold; JavaScript's `trim()` has its
  own whitespace set;
- `toLowerCase()` is ASCII only;
- `"x" + null` gives the text `"xnull"`;
- the NullPointerException messages are the "helpful" ones the JVM prints;
- `toFixed(1)` rounds exactly, because the code only divides a byte count by
  a power of two.

Where the code and its documentation disagree, the model follows the code:

- Any list in a decoded summary may be null.
- Every field of a finding may be null, because the decoder leaves out what
  the JSON omits (`Domain.Finding`). Its status is free text. A missing status
  is counted nowhere on the dashboard, and it makes the finding card's class
  binding throw (`ResultsDashboard.MissingStatusUncounted`).
- The text tab's gate counts UTF-16 code units, the unit of JavaScript's
  `length`, not characters (`UploadZone.TextGateBounds`).
- Both pages send every HTTP status outside 2xx to the error callback. The
  backend's failure replies carry 400 or 500, so their failure text never
  reaches the patient. The page shows its fixed connection message instead
  (`HomePage.BackendFailuresReachErrorCallback`,
  `FollowUpChat.BackendFailuresReachErrorCallback`).
- OpenRouter's cleaning is not idempotent (see `OpenRouter.CleanNotIdempotent`).
- With an unclosed think block, the text from the first `{` is kept.
- The controller's provider default is `ollama`, while the orchestrator's own
  default is `openrouter`. The orchestrator's default is never reached from
  the endpoints (see `Controller.ShippedTextDefaultIsOllama`).

Java source paths below start with `backend/src/main/java/com/patientvocate/`.
Front-end paths start with `frontend/src/app/`.

## Model

| member | source | states |
|---|---|---|
| AIService.ImageRejection | backend/src/main/java/com/patientvocate/service/ai/AIService.java:59-61 | The message is the fixed lead, then the provider's name, then ")", so the name can be read back from it. |
| AIService.ImageRejectionNamesProvider | backend/src/main/java/com/patientvocate/service/ai/AIService.java:59-61 | Providers with different names reject images with different exceptions. |
| AIService.TextOnlyProvider | backend/src/main/java/com/patientvocate/service/ai/AIService.java:49-61 | A provider that keeps both defaults does not support images and rejects every image with the message that names it. Its analysis and its follow-up answer are the ones it was given. |
| CodeFence.Unfence | backend/src/main/java/com/patientvocate/service/ai/OllamaAIService.java:157-165 | Removing fences never lengthens the text. A text with no line break and no closing fence is returned unchanged. |
| CodeFence.UnfenceBlock | backend/src/main/java/com/patientvocate/service/ai/OllamaAIService.java:157-165 | A fenced block whose opening line has an info string gives back exactly its body. |
| CodeFence.UnfenceUnclosed | backend/src/main/java/com/patientvocate/service/ai/OllamaAIService.java:157-165 | Without a closing fence, only the opening line is dropped. |
| Domain.Describe | backend/src/main/java/com/patientvocate/service/ReportService.java:86 | Concatenating a prefix with an exception message gives the prefix plus the message, or the prefix plus "null" when the message is null. |
| Domain.NullPointer | backend/src/main/java/com/patientvocate/service/ai/OpenRouterAIService.java:113 | A NullPointerException always has a message, and the message starts with "Cannot " and the attempted action. |
| ExceptionHandler.Render | backend/src/main/java/com/patientvocate/controller/GlobalExceptionHandler.java:21 | A field error is written as the field name, then ": ", then its message, where a null message gives "null". So it ends with that message. |
| ExceptionHandler.RenderAll | backend/src/main/java/com/patientvocate/controller/GlobalExceptionHandler.java:20-21 | There is one rendered string per field error, in the order the errors are reported. |
| ExceptionHandler.Reduce | backend/src/main/java/com/patientvocate/controller/GlobalExceptionHandler.java:22 | The fold is empty exactly when there are no parts. Otherwise it starts with the first part and ends with the last. Its length is the total length of the parts plus two characters per separator. |
| ExceptionHandler.PrefixedSnoc | backend/src/main/java/com/patientvocate/controller/GlobalExceptionHandler.java:22 | In the reference reading of the join, an appended part comes last, after a separator. |
| ExceptionHandler.ReduceJoinsInOrder | backend/src/main/java/com/patientvocate/controller/GlobalExceptionHandler.java:22 | The left fold equals the reference join: the first part, then every later part in order, each after "; ". |
| ExceptionHandler.ValidationMessage | backend/src/main/java/com/patientvocate/controller/GlobalExceptionHandler.java:20-23 | No field errors give "Validation failed". Otherwise the message is the fold of the rendered errors, in the order they are reported. |
| ExceptionHandler.SingleFieldError | backend/src/main/java/com/patientvocate/controller/GlobalExceptionHandler.java:20-23 | A single field error is reported as it is rendered. |
| ExceptionHandler.TwoFieldErrors | backend/src/main/java/com/patientvocate/controller/GlobalExceptionHandler.java:20-23 | Two field errors are joined with "; " between them. |
| ExceptionHandler.ValidationMessageBounds | backend/src/main/java/com/patientvocate/controller/GlobalExceptionHandler.java:20-23 | The message starts with the first error's field and ends with the last error's message. |
| ExceptionHandler.HandleValidation | backend/src/main/java/com/patientvocate/controller/GlobalExceptionHandler.java:18-29 | The reply is 400 with success false and the validation message. |
| ExceptionHandler.HandleMaxSize | backend/src/main/java/com/patientvocate/controller/GlobalExceptionHandler.java:31-37 | The reply is 413 with success false and the fixed 50MB text, whatever the exception says. |
| ExceptionHandler.HandleRuntime | backend/src/main/java/com/patientvocate/controller/GlobalExceptionHandler.java:39-45 | The reply is 500 with success false and the exception's message, or the fixed text when the message is null. |
| FindingCard.StatusIcon | frontend/src/app/components/finding-card/finding-card.component.ts:119-126 | Each of the three exact upper-case statuses gets its own icon. Every other text, and a missing status, gets the bullet. |
| FindingCard.StatusIconIdentifies | frontend/src/app/components/finding-card/finding-card.component.ts:119-126 | Any icon other than the bullet identifies the status. |
| FindingCard.StatusClass | frontend/src/app/components/finding-card/finding-card.component.ts:10-13 | A present status gives the card class ("finding-") and the badge class ("status-"), each the prefix followed by the lower-cased status. A missing status gives no class, because `toLowerCase` on an undefined status throws. |
| FindingCard.ClassesIgnoreCaseIconDoesNot | frontend/src/app/components/finding-card/finding-card.component.ts:10-126 | "normal" and "NORMAL" get the same classes, but only "NORMAL" gets the check-mark icon. |
| FindingCard.ClassesDependOnLowercase | frontend/src/app/components/finding-card/finding-card.component.ts:10-13 | Statuses that agree after lower-casing get the same card and badge classes. |
| FollowUpChat.AlternatesSnoc | frontend/src/app/components/follow-up-chat/follow-up-chat.component.ts:274-301 | Appending the message whose turn it is keeps the log alternating between user and assistant. |
| FollowUpChat.ReplyMessage | frontend/src/app/components/follow-up-chat/follow-up-chat.component.ts:284-301 | The assistant logs the answer on a successful reply and the error apology on an unsuccessful one. A failed request, meaning any non-2xx status or a transport failure, gives the connection apology. |
| FollowUpChat.Classify | frontend/src/app/components/follow-up-chat/follow-up-chat.component.ts:283-301 | HttpClient delivers a body exactly for a 2xx status. Every other status goes to the error callback. |
| FollowUpChat.BackendFailuresReachErrorCallback | frontend/src/app/components/follow-up-chat/follow-up-chat.component.ts:283-301 | A chat reply reaches the success callback exactly when the backend answered. Every backend failure gets the 500 status, so the patient sees the connection apology and never the backend's failure text. |
| FollowUpChat.FollowUpChatComponent.constructor | frontend/src/app/components/follow-up-chat/follow-up-chat.component.ts:248-253 | The component starts with the given inputs, an empty log, an empty box, not loading, and the invariant established. |
| FollowUpChat.FollowUpChatComponent.EditQuestion | frontend/src/app/components/follow-up-chat/follow-up-chat.component.ts:252 | Only the question box changes, and the invariant is kept. |
| FollowUpChat.FollowUpChatComponent.SendQuestion | frontend/src/app/components/follow-up-chat/follow-up-chat.component.ts:269-282 | A blank question, or one asked while loading, changes nothing and sends nothing. Otherwise the trimmed question is logged, the box is cleared, loading starts, and the request carries the log as it was before the question. That log has even length and alternates, and the invariant is kept. |
| FollowUpChat.FollowUpChatComponent.AskQuestion | frontend/src/app/components/follow-up-chat/follow-up-chat.component.ts:264-267 | A suggestion is put in the box and sent. When it is not sent, it stays in the box. |
| FollowUpChat.FollowUpChatComponent.Receive | frontend/src/app/components/follow-up-chat/follow-up-chat.component.ts:284-301 | Every reply ends the loading and appends the assistant's message. An awaited reply restores the invariant. |
| HomePage.FailureText | frontend/src/app/pages/home-page/home-page.component.ts:236 | A missing or empty error text gives the default text. Any other error text is shown as is. The result is never empty. |
| HomePage.Truthy | frontend/src/app/pages/home-page/home-page.component.ts:73 | A null or empty error is falsy. A truthy error is the text `FailureText` shows. |
| HomePage.ShowsUpload | frontend/src/app/pages/home-page/home-page.component.ts:17-48 | The hero and upload sections are shown only when not loading, and then exactly when there is no result. |
| HomePage.ShowsLoading | frontend/src/app/pages/home-page/home-page.component.ts:56 | The loading animation is shown exactly while loading. |
| HomePage.ShowsResults | frontend/src/app/pages/home-page/home-page.component.ts:59 | The results are shown exactly when there is a result and the page is not loading. |
| HomePage.ShowsError | frontend/src/app/pages/home-page/home-page.component.ts:73 | The error card is never shown while loading. It shows the error itself, and a null or empty error hides it. |
| HomePage.Classify | frontend/src/app/services/report.service.ts:30-46 | HttpClient delivers the body exactly for a 2xx status. Every other status goes to the error callback. |
| HomePage.BackendFailuresReachErrorCallback | frontend/src/app/pages/home-page/home-page.component.ts:229-241 | An analysis reply reaches the success callback exactly when the backend analysed the report. Every backend failure gets the 400 status and goes to the error callback, so the backend's failure text is never shown. |
| HomePage.OneMainSection | frontend/src/app/pages/home-page/home-page.component.ts:17-73 | Exactly one of the upload form, the loading animation and the results is shown. The error card never appears beside the loading animation. |
| HomePage.FailureShowsError | frontend/src/app/pages/home-page/home-page.component.ts:232-237 | A failed reply always leaves an error card on screen. |
| HomePage.HomePageComponent.constructor | frontend/src/app/pages/home-page/home-page.component.ts:218-221 | The page starts idle, with no result, an empty report text and no error. |
| HomePage.HomePageComponent.OnAnalyzeFile | frontend/src/app/pages/home-page/home-page.component.ts:225-228 | Starting a file analysis sets loading and clears the error. The result and the text are kept. |
| HomePage.HomePageComponent.OnAnalyzeText | frontend/src/app/pages/home-page/home-page.component.ts:246-249 | Starting a text analysis sets loading, clears the error and shows the submitted text at once. |
| HomePage.HomePageComponent.Receive | frontend/src/app/pages/home-page/home-page.component.ts:229-265 | A reply ends the loading. A success replaces the result and the text. An unsuccessful body sets its error text. A failed request, meaning a non-2xx status or a transport failure, sets the connection text. A failure keeps the previous result. |
| HomePage.HomePageComponent.ResetAnalysis | frontend/src/app/pages/home-page/home-page.component.ts:268-272 | Reset clears the result, the text and the error. The loading flag is untouched. |
| HomePage.HomePageComponent.DismissError | frontend/src/app/pages/home-page/home-page.component.ts:78 | "Try Again" clears only the error. |
| OcrService.NothingKnownNotImage | backend/src/main/java/com/patientvocate/service/OCRService.java:113-126 | A file with neither a content type nor a name is not an image. |
| OcrService.HasImageExtension | backend/src/main/java/com/patientvocate/service/OCRService.java:120-123 | The name is an image name exactly when, lower-cased, it ends with ".jpg", ".jpeg", ".png", ".tiff" or ".bmp". Such a name has at least four characters. |
| OcrService.IsImage | backend/src/main/java/com/patientvocate/service/OCRService.java:113-126 | A supported content type, in any case, makes the file an image. Without one, the file is an image exactly when its name has an image extension. A set but unsupported content type does not stop the name test. |
| OcrService.ImageTestIgnoresCase | backend/src/main/java/com/patientvocate/service/OCRService.java:113-126 | The image test gives the same answer for the lower-cased content type and name. |
| OcrService.ImageTypeAnyCase | backend/src/main/java/com/patientvocate/service/OCRService.java:117 | The content type is matched after lower-casing. |
| OcrService.NameDecidesForOtherTypes | backend/src/main/java/com/patientvocate/service/OCRService.java:113-126 | When the content type is missing or unsupported, the file is an image exactly when its name has an image extension. |
| OcrService.TifAndGifAreNotImages | backend/src/main/java/com/patientvocate/service/OCRService.java:120-124 | The ".tif" and ".gif" endings are not image extensions. |
| OcrService.UpperCaseExtension | backend/src/main/java/com/patientvocate/service/OCRService.java:121-123 | The extension is matched after lower-casing. |
| Ollama.Wrap | backend/src/main/java/com/patientvocate/service/ai/OllamaAIService.java:118-121 | A wrapped failure starts with the lead, and the original message follows it. |
| Ollama.GenerateText | backend/src/main/java/com/patientvocate/service/ai/OllamaAIService.java:114-117 | The reply's "response" field is returned exactly when the reply is present and has that key. Otherwise the result is the empty-response failure. |
| Ollama.CallOllama | backend/src/main/java/com/patientvocate/service/ai/OllamaAIService.java:99-122 | Transport failures and missing replies are both wrapped with the generate lead. Every failure carries that lead. |
| Ollama.ChatText | backend/src/main/java/com/patientvocate/service/ai/OllamaAIService.java:137-141 | The message content is read from the reply. A missing key is the empty-chat failure, and a null message is a NullPointerException. |
| Ollama.CallOllamaChat | backend/src/main/java/com/patientvocate/service/ai/OllamaAIService.java:127-146 | Every chat failure is wrapped with the chat lead. |
| Ollama.CleanJsonResponse | backend/src/main/java/com/patientvocate/service/ai/OllamaAIService.java:151-168 | A null reply gives "{}". The result has no outer whitespace. An unfenced reply is only trimmed. |
| Ollama.CleanFencedBlock | backend/src/main/java/com/patientvocate/service/ai/OllamaAIService.java:151-168 | A fenced block gives its trimmed body. |
| Ollama.CleanUnclosedFence | backend/src/main/java/com/patientvocate/service/ai/OllamaAIService.java:151-168 | An unclosed fence gives the trimmed text after the opening line. |
| Ollama.CleanKeepsUnfenced | backend/src/main/java/com/patientvocate/service/ai/OllamaAIService.java:151-168 | A reply that starts with neither whitespace nor a backtick is only trimmed. |
| Ollama.CleanStable | backend/src/main/java/com/patientvocate/service/ai/OllamaAIService.java:151-168 | Cleaning a cleaned reply that does not start with a fence changes nothing. |
| Ollama.Fallback | backend/src/main/java/com/patientvocate/service/ai/OllamaAIService.java:170-180 | The fallback summary quotes the raw reply after the fixed lead. Its lists are empty and its disclaimer is fixed. |
| Ollama.AnalysisRequestFor | backend/src/main/java/com/patientvocate/service/ai/OllamaAIService.java:101-108 | The generate request carries the model, the system prompt and the user prompt, with no streaming and the JSON format. |
| Ollama.AnalysisRequest | backend/src/main/java/com/patientvocate/service/ai/OllamaAIService.java:41-46 | The analysis request carries the model and the shared system prompt, is not streamed, asks for JSON, and its prompt is the user template from which the report text reads back. |
| Ollama.AnalyzeReport | backend/src/main/java/com/patientvocate/service/ai/OllamaAIService.java:38-59 | No contract of its own. It is `AnalyzeWith` applied to `AnalysisRequest`, whose contracts state it. |
| Ollama.AnalyzeWith | backend/src/main/java/com/patientvocate/service/ai/OllamaAIService.java:38-59 | The analysis fails exactly when the call fails, with the call's error. A reply the decoder rejects gives the fallback summary quoting the raw reply. A null `response` is decoded as "{}". |
| Ollama.NullResponseDecodesEmptyObject | backend/src/main/java/com/patientvocate/service/ai/OllamaAIService.java:47-57 | A null `response` gives the decoder's reading of "{}", and the fallback only if the decoder rejects "{}". |
| Ollama.AnalysisFailsOnlyInCall | backend/src/main/java/com/patientvocate/service/ai/OllamaAIService.java:44-58 | A failed analysis carries the generate lead. Decoding never fails it. |
| Ollama.HistoryTurn | backend/src/main/java/com/patientvocate/service/ai/OllamaAIService.java:75 | A history turn is built exactly when both its role and its content are present. A null role or content fails with a message-less NullPointerException from `Map.of`. |
| Ollama.HistoryTurns | backend/src/main/java/com/patientvocate/service/ai/OllamaAIService.java:73-77 | The turns are built exactly when every message can be built, one turn per message. |
| Ollama.HistoryTurnsFailureStays | backend/src/main/java/com/patientvocate/service/ai/OllamaAIService.java:73-77 | Once a prefix of the history fails, the whole history fails with the same error. |
| Ollama.FollowUpTurns | backend/src/main/java/com/patientvocate/service/ai/OllamaAIService.java:69-80 | The system turn comes first, then the history, then the question. |
| Ollama.FollowUpRequestFor | backend/src/main/java/com/patientvocate/service/ai/OllamaAIService.java:62-83 | A null history gives a request with only the system turn and the question. A history is added turn for turn, or its failure is the result. |
| Ollama.FollowUpRequestShape | backend/src/main/java/com/patientvocate/service/ai/OllamaAIService.java:69-80 | For a complete history, each message sits at its position plus one, with its role and content unchanged. |
| Ollama.FollowUpAnswerFor | backend/src/main/java/com/patientvocate/service/ai/OllamaAIService.java:62-83 | The answer is the chat call's answer for the built request. Every failure, of the build or of the call, escapes. |
| Ollama.AnswerFollowUp | backend/src/main/java/com/patientvocate/service/ai/OllamaAIService.java:62-83 | The method computes the follow-up answer with the system prompt built from the report and the summary. |
| Ollama.AnswerWith | backend/src/main/java/com/patientvocate/service/ai/OllamaAIService.java:66-82 | The loop over the history computes the same answer as the specification. |
| Ollama.Service | backend/src/main/java/com/patientvocate/service/ai/OllamaAIService.java:86-94 | The provider is named "ollama" and does not support images. It is available exactly when the tags request succeeds. Its operations are the modelled ones. |
| Ollama.IsAvailable | backend/src/main/java/com/patientvocate/service/ai/OllamaAIService.java:86-93 | A ping that throws makes the provider unavailable. Any reply, even a null body, makes it available. |
| OpenRouter.ExtractText | backend/src/main/java/com/patientvocate/service/ai/OpenRouterAIService.java:150-158 | The first choice's content is returned exactly when the reply, the choices, the message and the content are all present. A null first choice is a NullPointerException. Every other gap gives the empty-response failure. |
| OpenRouter.RemoveThinkBlocks | backend/src/main/java/com/patientvocate/service/ai/OpenRouterAIService.java:165 | Removing think blocks never lengthens the text. A text with no opening tag is unchanged. |
| OpenRouter.StripThinkBlocks | backend/src/main/java/com/patientvocate/service/ai/OpenRouterAIService.java:165 | The result of step 1 has no outer whitespace. |
| OpenRouter.SkipUnclosedThink | backend/src/main/java/com/patientvocate/service/ai/OpenRouterAIService.java:167-173 | With an unclosed tag and a brace, the text is cut to start at the brace. Otherwise it is unchanged. |
| OpenRouter.IsolateObject | backend/src/main/java/com/patientvocate/service/ai/OpenRouterAIService.java:175-181 | When a `{` comes before the last `}`, the result is the span between them. Otherwise the text is unchanged. |
| OpenRouter.StripFence | backend/src/main/java/com/patientvocate/service/ai/OpenRouterAIService.java:183-193 | An unfenced text is unchanged. A fenced one is unfenced and trimmed. |
| OpenRouter.Unescape | backend/src/main/java/com/patientvocate/service/ai/OpenRouterAIService.java:195-198 | The final text has no outer whitespace. |
| OpenRouter.CleanJsonResponse | backend/src/main/java/com/patientvocate/service/ai/OpenRouterAIService.java:160-199 | A null reply gives "{}". The result has no outer whitespace. |
| OpenRouter.RemoveThinkBlock | backend/src/main/java/com/patientvocate/service/ai/OpenRouterAIService.java:165 | A think block is removed lazily, up to the first closing tag, and the rest is processed on. |
| OpenRouter.ObjectSpan | backend/src/main/java/com/patientvocate/service/ai/OpenRouterAIService.java:176-181 | The outermost-brace span starts with `{` and ends with `}`. |
| OpenRouter.IsolateSlice | backend/src/main/java/com/patientvocate/service/ai/OpenRouterAIService.java:176-181 | Cutting away text outside the outer braces does not change the isolated object. |
| OpenRouter.IsolateAt | backend/src/main/java/com/patientvocate/service/ai/OpenRouterAIService.java:176-181 | Given the first `{` and the last `}`, the isolated object is the slice between them. |
| OpenRouter.SpanOfTrimmed | backend/src/main/java/com/patientvocate/service/ai/OpenRouterAIService.java:165-181 | Without an unclosed tag, trimming does not change the isolated object. |
| OpenRouter.SkipCutsAtBrace | backend/src/main/java/com/patientvocate/service/ai/OpenRouterAIService.java:167-173 | With an unclosed tag, step 2 leaves the trimmed text from the first brace. |
| OpenRouter.SpanOfCut | backend/src/main/java/com/patientvocate/service/ai/OpenRouterAIService.java:169-181 | Cutting at the first brace does not change the isolated object. |
| OpenRouter.ObjectSpanAfterStep3 | backend/src/main/java/com/patientvocate/service/ai/OpenRouterAIService.java:165-181 | After steps 1 to 3, the text is the outermost-brace span of the text with think blocks removed. |
| OpenRouter.FinishObject | backend/src/main/java/com/patientvocate/service/ai/OpenRouterAIService.java:183-198 | For a brace-delimited object, steps 4 and 5 only replace `\'` with `'`. |
| OpenRouter.CleanObjectSpan | backend/src/main/java/com/patientvocate/service/ai/OpenRouterAIService.java:160-199 | When the think-free text contains an object, cleaning gives its outermost-brace span with `\'` unescaped. |
| OpenRouter.CleanObjectBraces | backend/src/main/java/com/patientvocate/service/ai/OpenRouterAIService.java:160-199 | In that case the cleaned text starts with `{` and ends with `}`. |
| OpenRouter.UnescapeKeepsBraces | backend/src/main/java/com/patientvocate/service/ai/OpenRouterAIService.java:196 | Unescaping `\'` keeps an object's opening `{` and closing `}`. |
| OpenRouter.PlainObject | backend/src/main/java/com/patientvocate/service/ai/OpenRouterAIService.java:176-196 | Text that starts with `{`, ends with `}` and has no backslash is its own brace span. Unescaping leaves it unchanged. |
| OpenRouter.CleanUnclosedThink | backend/src/main/java/com/patientvocate/service/ai/OpenRouterAIService.java:167-199 | With an unclosed tag and a brace, the cleaned text starts with `{`. |
| OpenRouter.RemoveLeadingThinkBlock | backend/src/main/java/com/patientvocate/service/ai/OpenRouterAIService.java:165 | A leading think block disappears entirely. |
| OpenRouter.CleanAfterThinkBlock | backend/src/main/java/com/patientvocate/service/ai/OpenRouterAIService.java:160-199 | Reasoning followed by a plain JSON object cleans to exactly that object. |
| OpenRouter.CleanTwoBackslashes | backend/src/main/java/com/patientvocate/service/ai/OpenRouterAIService.java:196 | Two backslashes before a quote become one. |
| OpenRouter.CleanOneBackslash | backend/src/main/java/com/patientvocate/service/ai/OpenRouterAIService.java:196 | An escaped quote is unescaped. |
| OpenRouter.CleanNotIdempotent | backend/src/main/java/com/patientvocate/service/ai/OpenRouterAIService.java:196 | Cleaning twice can differ from cleaning once. |
| OpenRouter.Fallback | backend/src/main/java/com/patientvocate/service/ai/OpenRouterAIService.java:201-209 | The fallback summary and disclaimer quote the error message, or "null", after their fixed leads. Its lists are empty. |
| OpenRouter.AnalysisRequestFor | backend/src/main/java/com/patientvocate/service/ai/OpenRouterAIService.java:61-74 | The request carries the system and user messages, 4000 tokens, reasoning enabled and the JSON-object format. |
| OpenRouter.AnalysisRequest | backend/src/main/java/com/patientvocate/service/ai/OpenRouterAIService.java:58-65 | The analysis request carries the model and two messages, "system" then "user". The user message holds the user template, from which the report text reads back. |
| OpenRouter.UserMessageCarries | backend/src/main/java/com/patientvocate/service/ai/OpenRouterAIService.java:63-64 | The reading of the message list that the analysis request promises: a system message, then a user message whose prompt holds the report text. |
| OpenRouter.SystemThenUser | backend/src/main/java/com/patientvocate/service/ai/OpenRouterAIService.java:63-64 | A system message followed by a user message holding the report text meets that reading. |
| OpenRouter.AnalyzeReport | backend/src/main/java/com/patientvocate/service/ai/OpenRouterAIService.java:54-94 | No contract of its own. It is `AnalyzeWith` applied to `AnalysisRequest`, whose contracts state it. |
| OpenRouter.CheckJson | backend/src/main/java/com/patientvocate/service/ai/OpenRouterAIService.java:84-86 | The cleaned text passes exactly when it is non-empty and contains `{`. Otherwise the result is the fixed failure. |
| OpenRouter.AnalyzeWith | backend/src/main/java/com/patientvocate/service/ai/OpenRouterAIService.java:54-94 | Every failure (transport, empty reply, no JSON, decoding) becomes the fallback quoting its message. A success is the decoded cleaned text. |
| OpenRouter.HistoryMessage | backend/src/main/java/com/patientvocate/service/ai/OpenRouterAIService.java:113 | A message is added exactly when its role is present, with the role lower-cased and the content as is. A null role is a NullPointerException. |
| OpenRouter.HistoryMessages | backend/src/main/java/com/patientvocate/service/ai/OpenRouterAIService.java:111-115 | The history converts exactly when every role is present, one message per entry. |
| OpenRouter.HistoryFailureStays | backend/src/main/java/com/patientvocate/service/ai/OpenRouterAIService.java:111-115 | A failing prefix makes the whole history fail with the same error. |
| OpenRouter.FollowUpMessages | backend/src/main/java/com/patientvocate/service/ai/OpenRouterAIService.java:106-118 | The system message comes first, then the history, then the question. |
| OpenRouter.FollowUpRequestFor | backend/src/main/java/com/patientvocate/service/ai/OpenRouterAIService.java:104-118 | A null history adds nothing. Otherwise the history is added, or its failure is the result. The request has 1000 tokens. |
| OpenRouter.FollowUpRequestShape | backend/src/main/java/com/patientvocate/service/ai/OpenRouterAIService.java:111-118 | Each history entry sits at its position plus one, with its role lower-cased. |
| OpenRouter.FollowUpAnswerFor | backend/src/main/java/com/patientvocate/service/ai/OpenRouterAIService.java:97-127 | The answer is the reply text. Every failure becomes the apology plus its message. |
| OpenRouter.FollowUpApologises | backend/src/main/java/com/patientvocate/service/ai/OpenRouterAIService.java:123-126 | The follow-up never fails. Every failure gives the apology lead. |
| OpenRouter.AnswerFollowUp | backend/src/main/java/com/patientvocate/service/ai/OpenRouterAIService.java:97-127 | The method computes the follow-up answer with the system prompt built from the report and the summary. |
| OpenRouter.AnswerWith | backend/src/main/java/com/patientvocate/service/ai/OpenRouterAIService.java:103-126 | The loop over the history computes the same answer as the specification. |
| OpenRouter.PlaceholderKeyUnavailable | backend/src/main/java/com/patientvocate/service/ai/OpenRouterAIService.java:130-132 | A null key, an empty key or a key starting with "YOUR_" makes the provider unavailable. |
| OpenRouter.IsAvailable | backend/src/main/java/com/patientvocate/service/ai/OpenRouterAIService.java:130-132 | The provider is available exactly when the key is present, non-empty and does not start with "YOUR_". So every short non-empty key, and every key not starting with "Y", is available. |
| OpenRouter.Service | backend/src/main/java/com/patientvocate/service/ai/OpenRouterAIService.java:129-137 | The provider is named "openrouter" and does not support images. It is available exactly when the key test passes. Analysis never fails, and its operations are the modelled ones. |
| PdfParser.PdfTypeKeepsCase | backend/src/main/java/com/patientvocate/service/PDFParserService.java:55-61 | The content type is compared with its case kept, while the name is lower-cased. |
| PdfParser.IsPdf | backend/src/main/java/com/patientvocate/service/PDFParserService.java:55-61 | The exact type "application/pdf" makes the file a PDF. With any other type or none, the file is a PDF exactly when its lower-cased name ends with ".pdf". |
| PdfParser.PdfNameIgnoresCase | backend/src/main/java/com/patientvocate/service/PDFParserService.java:60 | The PDF test gives the same answer for a name and its lower-cased form. |
| PdfParser.ExtractText | backend/src/main/java/com/patientvocate/service/PDFParserService.java:27-50 | Blank or null text gives the scanned-PDF failure. Other text is trimmed. A checked failure is wrapped with the read lead, and a runtime failure passes through. |
| PdfParser.ExtractKeepsTrimmedText | backend/src/main/java/com/patientvocate/service/PDFParserService.java:35-42 | An already trimmed, non-empty text comes back unchanged. |
| PromptTemplates.BuildAnalysisUserPrompt | backend/src/main/java/com/patientvocate/service/ai/AIPromptTemplates.java:118-120 | The prompt is the fixed prefix, the report text verbatim and the fixed suffix, and the text sits at a fixed offset. |
| PromptTemplates.AnalysisPromptRoundTrip | backend/src/main/java/com/patientvocate/service/ai/AIPromptTemplates.java:70-81 | The report text can be read back out of the prompt. |
| PromptTemplates.CarriesReport | backend/src/main/java/com/patientvocate/service/ai/AIPromptTemplates.java:118-120 | The reading of "a prompt built from the report text": the prompt is long enough for the fixed parts, and the text between them is the report. |
| PromptTemplates.AnalysisPromptInjective | backend/src/main/java/com/patientvocate/service/ai/AIPromptTemplates.java:118-120 | Different report texts give different prompts. |
| PromptTemplates.AnalysisTextBetweenDelimiters | backend/src/main/java/com/patientvocate/service/ai/AIPromptTemplates.java:75-78 | The report text sits between the "LAB REPORT TEXT:" and `---` lines. |
| PromptTemplates.SummaryOrSentinel | backend/src/main/java/com/patientvocate/service/ai/AIPromptTemplates.java:126-127 | A null summary gives the sentinel. Any other summary is used as is. |
| PromptTemplates.Fill | backend/src/main/java/com/patientvocate/service/ai/AIPromptTemplates.java:125-127 | `String.format` inserts both arguments verbatim, in order, and the closing text ends the prompt. The length is the sum of the five parts, so nothing else is added. |
| PromptTemplates.FillLayout | backend/src/main/java/com/patientvocate/service/ai/AIPromptTemplates.java:83-113 | Both arguments and the fixed parts sit at computable offsets. |
| PromptTemplates.FillInjective | backend/src/main/java/com/patientvocate/service/ai/AIPromptTemplates.java:125-127 | A filled template and the first argument's length determine both arguments. |
| PromptTemplates.BuildFollowUpSystemPrompt | backend/src/main/java/com/patientvocate/service/ai/AIPromptTemplates.java:125-128 | The filled follow-up prompt starts with the report section, followed by the summary or the sentinel, and ends with the template's closing text. Its length is the sum of the parts. |
| PromptTemplates.FollowUpSections | backend/src/main/java/com/patientvocate/service/ai/AIPromptTemplates.java:88-95 | The report text follows the lab-report header, and the summary follows the previous-analysis header. |
| PromptTemplates.SentinelOnlyForMissing | backend/src/main/java/com/patientvocate/service/ai/AIPromptTemplates.java:126-127 | A null summary reads like the sentinel text itself, while an empty summary reads differently from a null one. |
| PromptTemplates.FillDistinct | backend/src/main/java/com/patientvocate/service/ai/AIPromptTemplates.java:125-127 | Different second arguments give different prompts. |
| PromptTemplates.FollowUpSummaryDetermined | backend/src/main/java/com/patientvocate/service/ai/AIPromptTemplates.java:125-128 | For one report text, the prompt determines the summary text. |
| Controller.EffectiveProvider | backend/src/main/java/com/patientvocate/controller/ReportController.java:35 | A missing or empty parameter gives "ollama". Any other value is passed on. The result is never empty. |
| Controller.MissingParamLooksUpOllama | backend/src/main/java/com/patientvocate/controller/ReportController.java:35 | Without a parameter, the lookup returns the "ollama" entry, or fails naming it. |
| Controller.AnalysisStatus | backend/src/main/java/com/patientvocate/controller/ReportController.java:48-52 | The status is 200 exactly for a success and 400 exactly for an error. |
| Controller.AnalyzeFileReply | backend/src/main/java/com/patientvocate/controller/ReportController.java:33-53 | An empty file gets 400 with "File is empty". Any other file gets the orchestrator's outcome with the matching status. |
| Controller.EmptyFileConsultsNothing | backend/src/main/java/com/patientvocate/controller/ReportController.java:40-43 | For an empty file, nothing behind the guard affects the reply. |
| Controller.AnalyzeTextReply | backend/src/main/java/com/patientvocate/controller/ReportController.java:58-72 | The reply is the orchestrator's text outcome under the effective provider, with the matching status. |
| Controller.ShippedTextDefaultIsOllama | backend/src/main/java/com/patientvocate/controller/ReportController.java:61 | With the shipped providers and no parameter, text is analysed by Ollama. |
| Controller.ChatReplyFor | backend/src/main/java/com/patientvocate/controller/ReportController.java:77-99 | An answer gives 200. Any failure gives 500 with the fixed lead and the message. |
| Controller.ChatReplyShape | backend/src/main/java/com/patientvocate/controller/ReportController.java:84-98 | The status is 200 exactly for an answer, and the status is only ever 200 or 500. Every error starts with the lead. |
| Controller.UnknownChatProvider | backend/src/main/java/com/patientvocate/controller/ReportController.java:94-98 | An unknown provider gives 500, quoting the name. |
| Controller.HealthFor | backend/src/main/java/com/patientvocate/controller/ReportController.java:104-118 | The status is "UP". The AI flag is true exactly when some provider is available, and the provider and model are fixed texts. |
| Controller.ReportController.constructor | backend/src/main/java/com/patientvocate/controller/ReportController.java:25-27 | The controller keeps the orchestrator it is given. |
| Controller.ReportController.AnalyzeFile | backend/src/main/java/com/patientvocate/controller/ReportController.java:33-53 | The status and a fresh body match the file reply. |
| Controller.ReportController.AnalyzeText | backend/src/main/java/com/patientvocate/controller/ReportController.java:58-72 | The status and a fresh body match the text reply. |
| Controller.ReportController.Chat | backend/src/main/java/com/patientvocate/controller/ReportController.java:77-99 | The status and a fresh body match the chat reply. |
| Controller.ReportController.Health | backend/src/main/java/com/patientvocate/controller/ReportController.java:104-118 | The status is 200, and the payload carries the orchestrator's availability. |
| Reports.Registry | backend/src/main/java/com/patientvocate/service/ReportService.java:29-33 | Every provider's name is a key. |
| Reports.RegistryHasOnlyNames | backend/src/main/java/com/patientvocate/service/ReportService.java:29-33 | Every key is some provider's name. |
| Reports.RegistryLastWins | backend/src/main/java/com/patientvocate/service/ReportService.java:31-33 | Under each name, the last provider with that name is kept. |
| Reports.ProviderKey | backend/src/main/java/com/patientvocate/service/ReportService.java:103-106 | The key is the lower-cased name, with "gemini" taken as "openrouter". |
| Reports.Resolve | backend/src/main/java/com/patientvocate/service/ReportService.java:99-112 | A null or empty name gives the "openrouter" entry, which may be absent. Any other name gives its entry, or the unsupported-provider failure quoting the name. |
| Reports.ResolveIgnoresCase | backend/src/main/java/com/patientvocate/service/ReportService.java:103 | Names that agree after lower-casing resolve alike. |
| Reports.GeminiIsOpenRouter | backend/src/main/java/com/patientvocate/service/ReportService.java:104-106 | "gemini", in any case, resolves to the OpenRouter entry. |
| Reports.BlankNameIsLookedUp | backend/src/main/java/com/patientvocate/service/ReportService.java:100-109 | A blank name is not defaulted. It fails as unsupported. |
| Reports.AvailableIffSomeProvider | backend/src/main/java/com/patientvocate/service/ReportService.java:117-119 | With distinct names, the registry is available exactly when some provider is. |
| Reports.AnyAvailable | backend/src/main/java/com/patientvocate/service/ReportService.java:117-119 | An empty registry is unavailable. Any registered provider that is available makes the registry available. |
| Reports.MissingService | backend/src/main/java/com/patientvocate/service/ReportService.java:80 | Calling a method on an absent default provider is a NullPointerException with a message. |
| Reports.AnalyzeTextOutcome | backend/src/main/java/com/patientvocate/service/ReportService.java:71-88 | Null or blank text gives the empty-text error. A success happens exactly when the lookup and the analysis succeed, and it carries the text and the provider's own summary. Each failure is "Analysis failed: " followed by the message of what failed: the lookup, the NullPointerException of a missing default provider, or the provider's analysis. |
| Reports.BlankTextConsultsNoProvider | backend/src/main/java/com/patientvocate/service/ReportService.java:73-75 | For blank text, the registry and the name do not matter. |
| Reports.AnalyzeTextErrors | backend/src/main/java/com/patientvocate/service/ReportService.java:71-88 | Every error is either the empty-text message or starts with "Analysis failed: ". |
| Reports.ExtractTextFromFile | backend/src/main/java/com/patientvocate/service/ReportService.java:124-135 | A PDF goes to PDF extraction, then an image to OCR. Anything else is unsupported. |
| Reports.DirectImageAnalysis | backend/src/main/java/com/patientvocate/service/ReportService.java:44-58 | Direct analysis is used exactly when the file is an image, the provider resolves, the provider supports images and its analysis succeeds. Otherwise the code falls through. |
| Reports.AnalyzeFileOutcome | backend/src/main/java/com/patientvocate/service/ReportService.java:41-66 | A direct success is tagged with its provider. An extraction failure is reported after "Failed to process file: ". Otherwise the text analysis applies. |
| Reports.UnsupportedFileRefused | backend/src/main/java/com/patientvocate/service/ReportService.java:131-134 | A file that is neither a PDF nor an image is refused with the fixed text. |
| Reports.TextOnlyRegistryExtracts | backend/src/main/java/com/patientvocate/service/ReportService.java:44-58 | When no provider supports images, every file goes through extraction. |
| Reports.HandleFollowUpOutcome | backend/src/main/java/com/patientvocate/service/ReportService.java:93-97 | A lookup failure escapes, and a missing default is a NullPointerException. Otherwise the result is the provider's answer. |
| Reports.ReportService.constructor | backend/src/main/java/com/patientvocate/service/ReportService.java:29-36 | The loop builds the registry of the given providers. |
| Reports.ReportService.IsAIAvailable | backend/src/main/java/com/patientvocate/service/ReportService.java:117-119 | No provider, no availability. An available provider under any key makes the service available, and only such a provider does. |
| Reports.ReportService.AnalyzeText | backend/src/main/java/com/patientvocate/service/ReportService.java:71-88 | A fresh response represents the text outcome. |
| Reports.ReportService.AnalyzeFile | backend/src/main/java/com/patientvocate/service/ReportService.java:41-66 | A fresh response represents the file outcome. |
| Reports.ReportService.HandleFollowUp | backend/src/main/java/com/patientvocate/service/ReportService.java:93-97 | A lookup failure escapes. A missing default provider gives the NullPointerException naming the call. Otherwise the result is the resolved provider's own answer. |
| Reports.ShippedRegistry | backend/src/main/java/com/patientvocate/service/ReportService.java:29-112 | With the two shipped providers, the registry has exactly their keys, the default is OpenRouter, and no image is analysed directly. |
| Reports.ShippedProvidersTextOnly | backend/src/main/java/com/patientvocate/service/ai/AIService.java:49-61 | Neither shipped provider supports images, and each rejects every image with the message that names it. |
| Responses.ReportAnalysisResponse.constructor | backend/src/main/java/com/patientvocate/dto/ReportAnalysisResponse.java:15 | A new response is unsuccessful, with every field null. |
| Responses.ReportAnalysisResponse.SetSuccess | backend/src/main/java/com/patientvocate/dto/ReportAnalysisResponse.java:33 | Only the success flag changes. |
| Responses.ReportAnalysisResponse.SetAnalysis | backend/src/main/java/com/patientvocate/dto/ReportAnalysisResponse.java:36 | Only the analysis changes. |
| Responses.ReportAnalysisResponse.SetReportText | backend/src/main/java/com/patientvocate/dto/ReportAnalysisResponse.java:39 | Only the report text changes. |
| Responses.ReportAnalysisResponse.SetError | backend/src/main/java/com/patientvocate/dto/ReportAnalysisResponse.java:42 | Only the error changes. |
| Responses.ReportAnalysisResponse.Success | backend/src/main/java/com/patientvocate/dto/ReportAnalysisResponse.java:17-23 | A fresh response represents the success with its analysis and text. |
| Responses.ReportAnalysisResponse.Error | backend/src/main/java/com/patientvocate/dto/ReportAnalysisResponse.java:25-30 | A fresh response represents the error with its text. |
| Responses.ReportAnalysisResponse.Of | backend/src/main/java/com/patientvocate/dto/ReportAnalysisResponse.java:17-30 | Either outcome is built by its factory. |
| Responses.AnalysisOutcomeUnique | backend/src/main/java/com/patientvocate/dto/ReportAnalysisResponse.java:17-30 | A response represents at most one outcome, and it is successful exactly for an analysis. |
| Responses.ChatResponse.constructor | backend/src/main/java/com/patientvocate/dto/ChatResponse.java:12 | A new response is unsuccessful, with every field null. |
| Responses.ChatResponse.SetSuccess | backend/src/main/java/com/patientvocate/dto/ChatResponse.java:29 | Only the success flag changes. |
| Responses.ChatResponse.SetAnswer | backend/src/main/java/com/patientvocate/dto/ChatResponse.java:32 | Only the answer changes. |
| Responses.ChatResponse.SetError | backend/src/main/java/com/patientvocate/dto/ChatResponse.java:35 | Only the error changes. |
| Responses.ChatResponse.Success | backend/src/main/java/com/patientvocate/dto/ChatResponse.java:14-19 | A fresh response represents the answer. |
| Responses.ChatResponse.Error | backend/src/main/java/com/patientvocate/dto/ChatResponse.java:21-26 | A fresh response represents the error. |
| Responses.ChatResponse.Of | backend/src/main/java/com/patientvocate/dto/ChatResponse.java:14-26 | Either outcome is built by its factory. |
| Responses.ChatOutcomeUnique | backend/src/main/java/com/patientvocate/dto/ChatResponse.java:14-26 | A response represents at most one outcome, and it is successful exactly for an answer. |
| ResultsDashboard.Matching | frontend/src/app/components/results-dashboard/results-dashboard.component.ts:223 | The filter keeps only findings with the status. It keeps all of them when all match and none when none match. |
| ResultsDashboard.CountStatus | frontend/src/app/components/results-dashboard/results-dashboard.component.ts:222-232 | Missing findings count 0. Otherwise the count is the number of matches, at most the number of findings. |
| ResultsDashboard.MatchingAppend | frontend/src/app/components/results-dashboard/results-dashboard.component.ts:223 | Filtering distributes over concatenation. |
| ResultsDashboard.CountsBounded | frontend/src/app/components/results-dashboard/results-dashboard.component.ts:222-232 | The three counts together never exceed the number of findings. |
| ResultsDashboard.DashboardCountsBounded | frontend/src/app/components/results-dashboard/results-dashboard.component.ts:222-232 | The same bound holds for the dashboard's optional list. |
| ResultsDashboard.OtherStatusesUncounted | frontend/src/app/components/results-dashboard/results-dashboard.component.ts:222-232 | A lower-case, unlisted or missing status is counted by none of the three. |
| ResultsDashboard.MissingStatusUncounted | frontend/src/app/components/results-dashboard/results-dashboard.component.ts:222-232 | A finding without a status is counted nowhere, gets the bullet icon on its card, and has no class, because its card's `toLowerCase` throws. |
| ResultsDashboard.ShowsCount | frontend/src/app/components/results-dashboard/results-dashboard.component.ts:32-39 | A count is shown only when findings are present and non-empty. |
| ResultsDashboard.ShowsGlossary | frontend/src/app/components/results-dashboard/results-dashboard.component.ts:50 | A null or empty glossary hides the section, even though an empty list is truthy. A shown glossary has an entry. |
| ResultsDashboard.ShowsQuestions | frontend/src/app/components/results-dashboard/results-dashboard.component.ts:65 | A null or empty question list hides the section. A shown list has an entry. |
| ResultsDashboard.ShowsCountIffPresent | frontend/src/app/components/results-dashboard/results-dashboard.component.ts:32-39 | A status's count is shown exactly when some finding has that status. |
| UploadZone.EmissionIn | frontend/src/app/components/upload-zone/upload-zone.component.ts:330-336 | A file is emitted exactly on the file tab with a file chosen. Text is emitted exactly on the text tab with non-blank text, and the emitted text is trimmed and non-empty. |
| UploadZone.CanAnalyzeIn | frontend/src/app/components/upload-zone/upload-zone.component.ts:323-328 | On the file tab the button is enabled exactly when a file is chosen. On the text tab, an enabled button means the trimmed text is non-empty with more than five characters, and more than ten characters always enable it. |
| UploadZone.TextGateBounds | frontend/src/app/components/upload-zone/upload-zone.component.ts:327 | JavaScript's `length` counts UTF-16 units. So the gate lies between six and eleven characters, and for text without astral characters it is exactly "more than ten". |
| UploadZone.SixEmojiEnable | frontend/src/app/components/upload-zone/upload-zone.component.ts:327 | Six emoji are six characters but twelve units, and they enable the button. |
| UploadZone.EnabledButtonEmits | frontend/src/app/components/upload-zone/upload-zone.component.ts:323-336 | An enabled button always emits what its tab holds. |
| UploadZone.ShortTextPassesHandler | frontend/src/app/components/upload-zone/upload-zone.component.ts:323-336 | A short text disables the button, but the handler would still emit it. |
| UploadZone.FileIcon | frontend/src/app/components/upload-zone/upload-zone.component.ts:338-344 | No file gets the document icon. A ".pdf" name, in any case, gets the PDF icon. Otherwise the image icon is shown exactly for an image ending. |
| UploadZone.UpperCasePdfIcon | frontend/src/app/components/upload-zone/upload-zone.component.ts:340-341 | An upper-case ".PDF" gets the PDF icon. |
| UploadZone.TifGetsDocumentIcon | frontend/src/app/components/upload-zone/upload-zone.component.ts:342-343 | A ".tif" name gets the document icon. |
| UploadZone.FileIconIgnoresCase | frontend/src/app/components/upload-zone/upload-zone.component.ts:338-344 | The icon depends only on the lower-cased name, never on the size. |
| UploadZone.RoundedTenths | frontend/src/app/components/upload-zone/upload-zone.component.ts:348-349 | The tenths are the nearest to the quotient, with ties rounded up. |
| UploadZone.OneDecimal | frontend/src/app/components/upload-zone/upload-zone.component.ts:348-349 | The text has a point before its last digit. |
| UploadZone.OneDecimalReadsBack | frontend/src/app/components/upload-zone/upload-zone.component.ts:348-349 | The digits read back as the count of tenths. |
| UploadZone.FormatFileSize | frontend/src/app/components/upload-zone/upload-zone.component.ts:346-350 | Below a kilobyte the size is shown in whole bytes. Below a megabyte it is shown in kilobytes, and otherwise in megabytes, both with one decimal. |
| UploadZone.SmallSizeReadsBack | frontend/src/app/components/upload-zone/upload-zone.component.ts:347 | A small size reads back exactly. |
| UploadZone.LargestKilobyteSize | frontend/src/app/components/upload-zone/upload-zone.component.ts:348 | One byte under a megabyte is shown as "1024.0 KB". |
| UploadZone.UploadZoneComponent.constructor | frontend/src/app/components/upload-zone/upload-zone.component.ts:283-286 | The component starts on the file tab with no file, no text and no drag. |
| UploadZone.UploadZoneComponent.SelectTab | frontend/src/app/components/upload-zone/upload-zone.component.ts:13-16 | Only the tab changes. |
| UploadZone.UploadZoneComponent.EditText | frontend/src/app/components/upload-zone/upload-zone.component.ts:55 | Only the text changes. |
| UploadZone.UploadZoneComponent.OnDragOver | frontend/src/app/components/upload-zone/upload-zone.component.ts:288-292 | Only the drag flag is set. |
| UploadZone.UploadZoneComponent.OnDragLeave | frontend/src/app/components/upload-zone/upload-zone.component.ts:294-298 | Only the drag flag is cleared. |
| UploadZone.UploadZoneComponent.OnDrop | frontend/src/app/components/upload-zone/upload-zone.component.ts:300-309 | The drag ends. The first dropped file replaces the selection, and an empty or missing list keeps it. |
| UploadZone.UploadZoneComponent.OnFileSelected | frontend/src/app/components/upload-zone/upload-zone.component.ts:311-316 | The first selected file replaces the selection, and nothing else changes. |
| UploadZone.UploadZoneComponent.RemoveFile | frontend/src/app/components/upload-zone/upload-zone.component.ts:318-321 | Only the selection is cleared. |
| UploadZone.UploadZoneComponent.OnAnalyze | frontend/src/app/components/upload-zone/upload-zone.component.ts:330-336 | The emission is the one the tab, the file and the text determine. |
| UploadZone.UploadZoneComponent.CanAnalyze | frontend/src/app/components/upload-zone/upload-zone.component.ts:323-328 | An enabled button means a file is chosen or the text tab is active. On the text tab, the trimmed text is then non-empty. |

## Left out

- The HTTP transport (RestTemplate, headers, the URL, timeouts) is a function parameter. The request's `temperature` is not modelled.
- The Jackson decoder is a function parameter, and it never returns null. The unchecked casts in the Ollama replies are taken to succeed.
- The OCR (Tesseract) and PDF (PDFBox) internals are inputs: the extraction result is given to the model. OCR's `extractText` is not part of this model.
- A provider's `isAvailable()` is a value taken once when the registry is built, so repeated pings are not modelled.
- Case mapping covers ASCII letters only. Java's and JavaScript's full Unicode lower-casing is not modelled.
- Logging is left out everywhere.
- Spring's bean validation is not modelled. `ChatRequest`'s report text and question are non-null strings. In the server, `@Valid` with `@NotBlank` answers a blank report text or a blank chat question with 400 and the field's message through `handleValidation`. The model instead answers blank text with the orchestrator's empty-text error (`Controller.AnalyzeTextReply`), and it passes a blank question on to the provider (`Controller.ChatReplyFor`). A history containing a null element is not modelled.
- `handleValidation` takes the field errors in the order the binding result lists them. Spring's ordering is not modelled.
- `Map.of` rejecting a null value in the exception handler's body (a null message reaches the fallback first) is not modelled.
- The front end's HTTP service (`report.service.ts`) is left out, apart from HttpClient's split of replies between the success and the error callback (`HomePage.Classify`). RxJS timing, Angular rendering and the CSS are left out. The header, loading animation, questions list, results page, app shell and routes are not part of this model.
- File sizes are whole numbers. Sizes above 2^53 bytes, where JavaScript's numbers stop being exact, are not modelled.
- A JSON null inside a chat answer is not modelled. The front end's answer is a string.
- Ollama.AnalyzeReport: has no contract of its own, because any proof in a context holding the full system prompt text is too expensive for the verifier. It applies `Ollama.AnalyzeWith` to `Ollama.AnalysisRequest`, and those two carry the contracts.
- OpenRouter.AnalyzeReport: has no contract of its own, for the same reason. It applies `OpenRouter.AnalyzeWith` to `OpenRouter.AnalysisRequest`.
- OpenRouter.AnalysisRequest: does not state in its contract that the system message is the shared system prompt, for the same reason. The body sends it.
- UploadZone.UploadZoneComponent.GetFileIcon: has no contract of its own, because it returns `FileIcon` of the selection, which carries the contract.
