/**
 * The chat widget: the open, minimised and unread flags, the input box, an append-only
 * message log, and the exchange with the chat endpoint. The HTTP subscription is split into
 * the send step, which returns the request it would post, and the two callbacks that
 * complete it.
 */
module Chatbot {
  import opened Wrappers
  import opened JsBuiltins
  import opened ChatApi

  /** The assistant's first message. */
  const WelcomeText: string :=
    "Hi! I'm here to help you find the perfect storage unit. Ask me about pricing, sizes, features, or anything else!"

  /** The assistant message logged when the request fails. */
  const ConnectionTroubleText: string :=
    "I'm having trouble connecting. Try asking about storage sizes, pricing, or security features!"

  /** The body posted to the chat endpoint: the trimmed message and the preceding conversation. */
  datatype ChatRequest = ChatRequest(message: string, history: seq<ChatMessage>)

  datatype QuickQuestion = QuickQuestion(labelText: string, question: string)

  /** The canned questions offered as buttons. */
  const QuickQuestions: seq<QuickQuestion> := [
    QuickQuestion("Pricing", "How much do storage units cost?"),
    QuickQuestion("Sizes", "What size storage unit do I need?"),
    QuickQuestion("Climate Control", "Do I need climate-controlled storage?"),
    QuickQuestion("Security", "How secure are the storage facilities?"),
    QuickQuestion("24-Hour Access", "Can I access my unit anytime?"),
    QuickQuestion("Reservations", "How do I reserve a storage unit?")
  ]

  /**
   * `log.slice(-7, -1)`, taken right after the new message was appended: the last six
   * messages before it, in order, never the new message itself.
   */
  function HistoryBefore(log: seq<ChatMessage>): (r: seq<ChatMessage>)
    requires |log| > 0
    ensures r == LastN(log[..|log| - 1], 6)
    ensures |r| == if |log| - 1 < 6 then |log| - 1 else 6
  {
    assert log == log[..|log| - 1] + [log[|log| - 1]];
    SliceBeforeLast(log[..|log| - 1], log[|log| - 1], 6);
    Slice(log, -7, -1)
  }

  /** The send guard: a send goes ahead when the trimmed input is not empty and no request is pending. */
  predicate SendAllowed(input: string, isLoading: bool) {
    Trim(input) != [] && !isLoading
  }

  /** A send is refused exactly when a request is pending or the input is nothing but white space. */
  lemma SendAllowedIff(input: string, isLoading: bool)
    ensures SendAllowed(input, isLoading) <==>
      !isLoading && exists k :: 0 <= k < |input| && !IsJsWhitespace(input[k])
  {
    TrimEmptyIff(input);
  }

  class ChatbotComponent {
    var isOpen: bool
    var isMinimized: bool
    var messages: seq<ChatMessage>
    var inputMessage: string
    var isLoading: bool
    var hasUnread: bool

    /** While a request is pending, the last logged message is the user message it was sent for. */
    ghost predicate Valid()
      reads this
    {
      isLoading ==> |messages| > 0 && messages[|messages| - 1].role == User
    }

    constructor ()
      ensures Valid()
      ensures !isOpen && !isMinimized && !isLoading && !hasUnread
      ensures messages == [] && inputMessage == ""
    {
      isOpen, isMinimized, isLoading, hasUnread := false, false, false, false;
      messages, inputMessage := [], "";
    }

    /** `ngOnInit`: logs the welcome message. Angular runs it once, before any request is made. */
    method NgOnInit()
      requires !isLoading
      modifies this
      ensures Valid()
      ensures messages == old(messages) + [ChatMessage(Assistant, WelcomeText)]
      ensures isOpen == old(isOpen) && isMinimized == old(isMinimized) && hasUnread == old(hasUnread)
      ensures inputMessage == old(inputMessage) && !isLoading
    {
      messages := messages + [ChatMessage(Assistant, WelcomeText)];
    }

    /** Restores a minimised window, or else opens or closes it; either way the unread mark goes. */
    method ToggleChat()
      requires Valid()
      modifies this
      ensures Valid()
      ensures old(isMinimized) ==> !isMinimized && isOpen == old(isOpen)
      ensures !old(isMinimized) ==> !isMinimized && isOpen == !old(isOpen)
      ensures !hasUnread
      ensures messages == old(messages) && inputMessage == old(inputMessage) && isLoading == old(isLoading)
    {
      if isMinimized {
        isMinimized := false;
      } else {
        isOpen := !isOpen;
      }
      hasUnread := false;
    }

    method MinimizeChat()
      requires Valid()
      modifies this
      ensures Valid()
      ensures isMinimized && isOpen == old(isOpen) && hasUnread == old(hasUnread)
      ensures messages == old(messages) && inputMessage == old(inputMessage) && isLoading == old(isLoading)
    {
      isMinimized := true;
    }

    method CloseChat()
      requires Valid()
      modifies this
      ensures Valid()
      ensures !isOpen && !isMinimized && hasUnread == old(hasUnread)
      ensures messages == old(messages) && inputMessage == old(inputMessage) && isLoading == old(isLoading)
    {
      isOpen := false;
      isMinimized := false;
    }

    /**
     * `sendMessage`: when the guard lets it through, logs the trimmed input as a user message,
     * clears the input, marks a request as pending and returns the request to post, whose
     * history is the last six messages logged before the new one. Otherwise nothing changes.
     */
    method SendMessage() returns (request: Option<ChatRequest>)
      requires Valid()
      modifies this
      ensures Valid()
      ensures request.Some? <==> SendAllowed(old(inputMessage), old(isLoading))
      ensures request.None? ==>
        messages == old(messages) && inputMessage == old(inputMessage) && isLoading == old(isLoading)
      ensures request.Some? ==>
        && messages == old(messages) + [ChatMessage(User, Trim(old(inputMessage)))]
        && inputMessage == ""
        && isLoading
        && request.value == ChatRequest(Trim(old(inputMessage)), LastN(old(messages), 6))
      ensures isOpen == old(isOpen) && isMinimized == old(isMinimized) && hasUnread == old(hasUnread)
    {
      var message := Trim(inputMessage);
      if message == [] || isLoading {
        request := None;
        return;
      }
      var log := messages + [ChatMessage(User, message)];
      var history := HistoryBefore(log);
      assert history == LastN(messages, 6) by {
        assert log[..|log| - 1] == messages;
      }
      messages, inputMessage, isLoading := log, "", true;
      request := Some(ChatRequest(message, history));
    }

    /** `askQuickQuestion`: puts the question in the input box and sends it. */
    method AskQuickQuestion(question: string) returns (request: Option<ChatRequest>)
      requires Valid()
      modifies this
      ensures Valid()
      ensures request.Some? <==> SendAllowed(question, old(isLoading))
      ensures request.None? ==> messages == old(messages) && inputMessage == question && isLoading == old(isLoading)
      ensures request.Some? ==>
        && messages == old(messages) + [ChatMessage(User, Trim(question))]
        && inputMessage == ""
        && isLoading
        && request.value == ChatRequest(Trim(question), LastN(old(messages), 6))
      ensures isOpen == old(isOpen) && isMinimized == old(isMinimized) && hasUnread == old(hasUnread)
    {
      inputMessage := question;
      request := SendMessage();
    }

    /** `handleKeydown`: Enter without Shift sends; any other key does nothing here. */
    method HandleKeydown(key: string, shiftKey: bool) returns (request: Option<ChatRequest>)
      requires Valid()
      modifies this
      ensures Valid()
      ensures request.Some? <==> key == "Enter" && !shiftKey && SendAllowed(old(inputMessage), old(isLoading))
      ensures request.None? ==>
        messages == old(messages) && inputMessage == old(inputMessage) && isLoading == old(isLoading)
      ensures request.Some? ==>
        && messages == old(messages) + [ChatMessage(User, Trim(old(inputMessage)))]
        && inputMessage == ""
        && isLoading
        && request.value == ChatRequest(Trim(old(inputMessage)), LastN(old(messages), 6))
      ensures isOpen == old(isOpen) && isMinimized == old(isMinimized) && hasUnread == old(hasUnread)
    {
      if key == "Enter" && !shiftKey {
        request := SendMessage();
      } else {
        request := None;
      }
    }

    /**
     * The `next` callback of the pending request: logs the reply as an assistant message and
     * ends the pending state; a reply that arrives while minimised marks the chat unread.
     */
    method OnResponse(response: string)
      requires Valid() && isLoading
      modifies this
      ensures Valid()
      ensures messages == old(messages) + [ChatMessage(Assistant, response)]
      ensures !isLoading
      ensures hasUnread == (old(hasUnread) || old(isMinimized))
      ensures isOpen == old(isOpen) && isMinimized == old(isMinimized) && inputMessage == old(inputMessage)
    {
      messages := messages + [ChatMessage(Assistant, response)];
      isLoading := false;
      if isMinimized {
        hasUnread := true;
      }
    }

    /** The `error` callback of the pending request: logs the fixed apology and ends the pending state. */
    method OnError()
      requires Valid() && isLoading
      modifies this
      ensures Valid()
      ensures messages == old(messages) + [ChatMessage(Assistant, ConnectionTroubleText)]
      ensures !isLoading
      ensures hasUnread == old(hasUnread)
      ensures isOpen == old(isOpen) && isMinimized == old(isMinimized) && inputMessage == old(inputMessage)
    {
      messages := messages + [ChatMessage(Assistant, ConnectionTroubleText)];
      isLoading := false;
    }
  }

  /** A fresh widget after `ngOnInit` holds exactly the welcome message and is ready to send. */
  method Startup() returns (chat: ChatbotComponent)
    ensures fresh(chat) && chat.Valid()
    ensures chat.messages == [ChatMessage(Assistant, WelcomeText)]
    ensures !chat.isOpen && !chat.isMinimized && !chat.isLoading && !chat.hasUnread && chat.inputMessage == ""
  {
    chat := new ChatbotComponent();
    chat.NgOnInit();
  }

  /** The "24-Hour Access" quick question gets the climate answer, not the access one. */
  lemma AccessQuickQuestionGetsClimate()
    ensures QuickQuestions[4].labelText == "24-Hour Access"
    ensures FaqMatch(QuickQuestions[4].question) == Some(Climate)
  {
    AccessQuestionGetsClimate();
  }

  /**
   * The "Security" quick question mentions "facilities", which contains the climate keyword
   * "ac": it gets the pricing, sizes or climate answer, never the security one.
   */
  lemma SecurityQuickQuestionMissesSecurity()
    ensures QuickQuestions[3].labelText == "Security"
    ensures FaqMatch(QuickQuestions[3].question) in {Some(Pricing), Some(Sizes), Some(Climate)}
  {
    var q := QuickQuestions[3].question;
    var lower := Lower(q);
    assert lower[28..30] == "ac";
    assert OccursAt(lower, "ac", 28);
    IncludesIff(lower, "ac");
    AcShadowsLaterTopics(q);
  }
}
