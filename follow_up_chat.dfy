/** The follow-up chat of the front end (`FollowUpChatComponent`): a log of
    messages, the question being typed, and a loading flag that keeps one
    request in flight at a time. Sending a question and receiving its reply
    are separate steps; the request the component sends is returned by the
    first. */
module FollowUpChat {
  import opened Wrappers
  import opened Strings
  import AIService
  import Controller

  datatype Role = User | Assistant

  datatype Message = Message(role: Role, content: string)

  /** The body of the chat request. */
  datatype ChatCall = ChatCall(reportText: string, analysisSummary: string, question: string,
                               conversationHistory: seq<Message>)

  /** How the request ended, as `HttpClient` reports it: the body of a 2xx
      reply goes to `next`; a transport failure and every other status go
      to `error`, whose body the component does not read. */
  datatype Reply = Delivered(success: bool, answer: string) | Failed

  /** The split `HttpClient` makes on the status of a reply. */
  function Classify(status: int, success: bool, answer: string): (r: Reply)
    ensures r.Delivered? <==> 200 <= status < 300
    ensures r.Delivered? ==> r.success == success && r.answer == answer
  {
    if 200 <= status < 300 then Delivered(success, answer) else Failed
  }

  const ErrorApology: string := "Sorry, I encountered an error. Please try again."
  const ConnectApology: string :=
    "Sorry, I couldn't connect to the AI service. Please make sure the backend is running."

  /** The suggestion chips. */
  const Suggestions: seq<string> := [
    "What does this mean for my health?",
    "Should I be worried about any results?",
    "What lifestyle changes might help?",
    "What should I ask my doctor about?"
  ]

  /** The role a message at position `i` of a well-kept log has: questions at
      even positions, answers at odd ones. */
  function RoleAt(i: nat): Role {
    if i % 2 == 0 then User else Assistant
  }

  predicate Alternates(log: seq<Message>) {
    forall i :: 0 <= i < |log| ==> log[i].role == RoleAt(i)
  }

  /** Appending the message whose turn it is keeps the log alternating. */
  lemma AlternatesSnoc(log: seq<Message>, m: Message)
    requires Alternates(log) && m.role == RoleAt(|log|)
    ensures Alternates(log + [m])
  {
    var next := log + [m];
    assert forall i :: 0 <= i < |log| ==> next[i] == log[i];
  }

  /** What the assistant's message says for a reply. */
  function ReplyMessage(reply: Reply): (m: Message)
    ensures m.role == Assistant
    ensures reply.Delivered? && reply.success ==> m.content == reply.answer
    ensures reply.Delivered? && !reply.success ==> m.content == ErrorApology
    ensures reply.Failed? ==> m.content == ConnectApology
  {
    match reply
    case Delivered(ok, answer) => Message(Assistant, if ok then answer else ErrorApology)
    case Failed => Message(Assistant, ConnectApology)
  }

  class FollowUpChatComponent {
    var reportText: string
    var analysisSummary: string
    var messages: seq<Message>
    var currentQuestion: string
    var isLoading: bool

    /** The inputs default to empty text; the log starts empty and idle. */
    constructor (reportText: string, analysisSummary: string)
      ensures this.reportText == reportText && this.analysisSummary == analysisSummary
      ensures messages == [] && currentQuestion == [] && !isLoading
      ensures Valid()
    {
      this.reportText := reportText;
      this.analysisSummary := analysisSummary;
      messages := [];
      currentQuestion := [];
      isLoading := false;
    }

    /** The loading guard's invariant: the log alternates from a question,
      and it is odd exactly while an answer is awaited. */
    predicate Valid()
      reads this
    {
      Alternates(messages) && (isLoading <==> |messages| % 2 == 1)
    }

    /** The question box's two-way binding. */
    method EditQuestion(text: string)
      modifies this
      ensures currentQuestion == text
      ensures messages == old(messages) && isLoading == old(isLoading)
      ensures reportText == old(reportText) && analysisSummary == old(analysisSummary)
      ensures old(Valid()) ==> Valid()
    {
      currentQuestion := text;
    }

    /** `sendQuestion`: a blank question, or one asked while loading, does
      nothing; any other is logged trimmed, the box is cleared, and the
      request carries the log as it was before the question. */
    method SendQuestion() returns (call: Option<ChatCall>)
      modifies this
      ensures reportText == old(reportText) && analysisSummary == old(analysisSummary)
      ensures var q := JsTrim(old(currentQuestion));
              q == [] || old(isLoading) ==>
                && call.None? && messages == old(messages)
                && currentQuestion == old(currentQuestion) && isLoading == old(isLoading)
      ensures var q := JsTrim(old(currentQuestion));
              q != [] && !old(isLoading) ==>
                && messages == old(messages) + [Message(User, q)]
                && currentQuestion == [] && isLoading
                && call == Some(ChatCall(reportText, analysisSummary, q, old(messages)))
                && call.value.conversationHistory == messages[..|messages| - 1]
      ensures old(Valid()) ==> Valid()
      ensures old(Valid()) && call.Some? ==>
                |call.value.conversationHistory| % 2 == 0 && Alternates(call.value.conversationHistory)
    {
      var question := JsTrim(currentQuestion);
      if question == [] || isLoading {
        call := None;
        return;
      }
      var history := messages;
      if Alternates(messages) && |messages| % 2 == 0 {
        AlternatesSnoc(messages, Message(User, question));
      }
      messages := messages + [Message(User, question)];
      assert messages[..|messages| - 1] == history;
      currentQuestion := [];
      isLoading := true;
      call := Some(ChatCall(reportText, analysisSummary, question, history));
    }

    /** `askQuestion`: the suggestion is put in the box and sent; when it is
      not sent, it stays in the box. */
    method AskQuestion(question: string) returns (call: Option<ChatCall>)
      modifies this
      ensures reportText == old(reportText) && analysisSummary == old(analysisSummary)
      ensures var q := JsTrim(question);
              q == [] || old(isLoading) ==>
                && call.None? && messages == old(messages)
                && currentQuestion == question && isLoading == old(isLoading)
      ensures var q := JsTrim(question);
              q != [] && !old(isLoading) ==>
                && messages == old(messages) + [Message(User, q)]
                && currentQuestion == [] && isLoading
                && call == Some(ChatCall(reportText, analysisSummary, q, old(messages)))
      ensures old(Valid()) ==> Valid()
    {
      currentQuestion := question;
      call := SendQuestion();
    }

    /** The end of the request: the assistant's message is logged and the
      loading flag drops, for every kind of reply. */
    method Receive(reply: Reply)
      modifies this
      ensures messages == old(messages) + [ReplyMessage(reply)]
      ensures !isLoading
      ensures currentQuestion == old(currentQuestion)
      ensures reportText == old(reportText) && analysisSummary == old(analysisSummary)
      ensures old(Valid()) && old(isLoading) ==> Valid()
    {
      if Alternates(messages) && |messages| % 2 == 1 {
        AlternatesSnoc(messages, ReplyMessage(reply));
      }
      isLoading := false;
      messages := messages + [ReplyMessage(reply)];
    }
  }

  /** Against the shipped controller, which answers every failed follow-up
      with 500, a body reaches `next` exactly when there is an answer: the
      controller's "Failed to process your question" text never reaches the
      log, and every failure is logged as the connection apology. */
  lemma BackendFailuresReachErrorCallback(registry: map<string, AIService.Provider>,
                                          request: Controller.ChatRequest, param: Option<string>,
                                          success: bool, answer: string)
    ensures var r := Controller.ChatReplyFor(registry, request, param);
            Classify(r.status, success, answer).Delivered? <==> r.outcome.Answered?
    ensures var r := Controller.ChatReplyFor(registry, request, param);
            r.outcome.ChatError? ==> ReplyMessage(Classify(r.status, success, answer)) == Message(Assistant, ConnectApology)
  {
    Controller.ChatReplyShape(registry, request, param);
  }
}
