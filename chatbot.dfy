/**
 * The assistant dialog: the keyword table and its first-match lookup,
 * sending a message, and the bot's delayed reply (the timer itself is not
 * modelled; its firing is a separate step).
 */
module Chatbot {
  import opened Text

  /** `predefinedResponses`, as (keyword, response) pairs in declaration order. */
  const Responses: seq<(string, string)> := [
    ("hello", "Hello! How can I help you today?"),
    ("hi", "Hi there! What would you like to know about Community Connect?"),
    ("help", "I can help you with:\n• Registering complaints\n• Tracking complaint status\n• Understanding the process\n• General information about Community Connect"),
    ("complaint", "To register a complaint, go to the \"Report Issue\" section, select the appropriate category, fill in the required details including location and description (minimum 40 words), and set the priority level."),
    ("status", "You can track your complaint status in the \"My Complaints\" section. The status will show as Pending, Assigned, In Progress, or Resolved."),
    ("time", "We aim to resolve complaints within 10 working days. High priority issues are addressed faster."),
    ("photos", "Yes, you can upload photos to help illustrate the issue. Supported formats are PNG and JPG, up to 5MB each."),
    ("contact", "For urgent matters, call 100 for emergencies or email testprofilecode@gmail.com for general support."),
    ("default", "I understand you're asking about that. For detailed assistance, please contact our support team at testprofilecode@gmail.com or refer to the Help Center section.")
  ]

  /** `predefinedResponses['default']`. */
  const DefaultResponse := Responses[8].1

  /** The response of the first keyword, from position `i` on, that occurs in `message`. */
  function ResponseFrom(i: nat, message: string): (r: string)
    requires i <= |Responses|
    ensures r == DefaultResponse || exists k :: i <= k < |Responses| && r == Responses[k].1
    decreases |Responses| - i
  {
    if i == |Responses| then DefaultResponse
    else if Contains(message, Responses[i].0) then Responses[i].1
    else ResponseFrom(i + 1, message)
  }

  /** `getBotResponse`, as a function of the user's message. */
  function BotResponse(userMessage: string): string {
    ResponseFrom(0, Lower(userMessage))
  }

  /** `getBotResponse`: lower-case the message, then scan the keywords in order. */
  method GetBotResponse(userMessage: string) returns (response: string)
    ensures response == BotResponse(userMessage)
  {
    var message := Lower(userMessage);
    var i := 0;
    while i < |Responses|
      invariant 0 <= i <= |Responses|
      invariant ResponseFrom(i, message) == ResponseFrom(0, message)
    {
      if Contains(message, Responses[i].0) {
        return Responses[i].1;
      }
      i := i + 1;
    }
    return DefaultResponse;
  }

  /**
   * Scanning from `i`, the response is that of the first keyword occurring in
   * the message, or the default when none from `i` on occurs.
   */
  lemma {:induction false} ResponseFromSpec(i: nat, message: string, k: nat)
    requires i <= k < |Responses|
    ensures (Contains(message, Responses[k].0) &&
             forall j :: i <= j < k ==> !Contains(message, Responses[j].0))
            ==> ResponseFrom(i, message) == Responses[k].1
    decreases k - i
  {
    if i < k && !Contains(message, Responses[i].0) {
      ResponseFromSpec(i + 1, message, k);
    }
  }

  lemma {:induction false} ResponseFromNoMatch(i: nat, message: string)
    requires i <= |Responses|
    requires forall j :: i <= j < |Responses| ==> !Contains(message, Responses[j].0)
    ensures ResponseFrom(i, message) == DefaultResponse
    decreases |Responses| - i
  {
    if i < |Responses| {
      ResponseFromNoMatch(i + 1, message);
    }
  }

  /** The response is that of the first keyword, in declaration order, occurring in the lower-cased message. */
  lemma FirstKeywordWins(userMessage: string, k: nat)
    requires k < |Responses|
    requires Contains(Lower(userMessage), Responses[k].0)
    requires forall j :: 0 <= j < k ==> !Contains(Lower(userMessage), Responses[j].0)
    ensures BotResponse(userMessage) == Responses[k].1
  {
    ResponseFromSpec(0, Lower(userMessage), k);
  }

  /** When no keyword occurs, the default response is given. */
  lemma NoKeywordGivesDefault(userMessage: string)
    requires forall j :: 0 <= j < |Responses| ==> !Contains(Lower(userMessage), Responses[j].0)
    ensures BotResponse(userMessage) == DefaultResponse
  {
    ResponseFromNoMatch(0, Lower(userMessage));
  }

  /** Matching ignores ASCII case. */
  lemma BotResponseIgnoresCase(userMessage: string)
    ensures BotResponse(userMessage) == BotResponse(Lower(userMessage))
  {
    LowerIdempotent(userMessage);
  }

  /** The response is always one of the nine predefined responses. */
  lemma BotResponseIsPredefined(userMessage: string)
    ensures exists k :: 0 <= k < |Responses| && BotResponse(userMessage) == Responses[k].1
  {
    var r := BotResponse(userMessage);
    if r == DefaultResponse {
      assert r == Responses[8].1;
    }
  }

  /** "hi" is checked right after "hello", so it wins over "help", "status" and the rest. */
  lemma HiBeforeLaterKeywords(userMessage: string)
    requires Contains(Lower(userMessage), "hi") && !Contains(Lower(userMessage), "hello")
    ensures BotResponse(userMessage) == Responses[1].1
  {
    FirstKeywordWins(userMessage, 1);
  }

  /**
   * Keywords match anywhere, even inside another word: "this status" gets the
   * "hi" response, not the "status" one, because "this" contains "hi".
   */
  lemma ThisContainsHi(userMessage: string)
    requires userMessage == "this status"
    ensures Contains(Lower(userMessage), "status")
    ensures BotResponse(userMessage) == Responses[1].1
  {
    var m := Lower(userMessage);
    assert m == userMessage;
    assert "hi" <= m[1..];
    ContainsAt(m, "hi", 1);
    assert "status" <= m[5..];
    ContainsAt(m, "status", 5);
    MissingCharNotContained(m, "hello", 'o');
    HiBeforeLaterKeywords(userMessage);
  }

  datatype Sender = UserSender | BotSender

  /** A chat message; `timestamp` is a clock reading in milliseconds. */
  datatype Message = Message(id: string, content: string, sender: Sender, timestamp: nat)

  const WelcomeText := "Hello! I'm here to help you with Community Connect. How can I assist you today?"

  /** The dialog's state: the message log, the input box and the typing indicator. */
  class ChatDialog {
    var messages: seq<Message>
    var inputMessage: string
    var isTyping: bool

    /** The initial state: one bot greeting, an empty input, nobody typing. */
    constructor(nowMillis: nat)
      ensures messages == [Message("1", WelcomeText, BotSender, nowMillis)]
      ensures inputMessage == "" && !isTyping
    {
      messages := [Message("1", WelcomeText, BotSender, nowMillis)];
      inputMessage := "";
      isTyping := false;
    }

    /** The input box's change handler. */
    method SetInput(value: string)
      modifies this
      ensures inputMessage == value
      ensures messages == old(messages) && isTyping == old(isTyping)
    {
      inputMessage := value;
    }

    /**
     * The synchronous part of `handleSendMessage`: a blank input is ignored;
     * otherwise the untrimmed input is logged as a user message, the input is
     * cleared and the typing indicator is shown.
     */
    method SendMessage(nowMillis: nat) returns (sent: bool)
      modifies this
      ensures sent <==> !IsBlank(old(inputMessage))
      ensures !sent ==>
        messages == old(messages) && inputMessage == old(inputMessage) && isTyping == old(isTyping)
      ensures sent ==>
        && messages == old(messages) + [Message(DecimalString(nowMillis), old(inputMessage), UserSender, nowMillis)]
        && inputMessage == ""
        && isTyping
    {
      if IsBlank(inputMessage) {
        return false;
      }
      var userMessage := Message(DecimalString(nowMillis), inputMessage, UserSender, nowMillis);
      messages := messages + [userMessage];
      inputMessage := "";
      isTyping := true;
      sent := true;
    }

    /**
     * The delayed part of `handleSendMessage`, when its timer fires:
     * `sentText` is the input the handler captured when the message was sent
     * and `nowMillis` the clock reading at the reply. The bot's answer to that
     * text is logged and the typing indicator is hidden.
     */
    method DeliverBotReply(sentText: string, nowMillis: nat)
      modifies this
      ensures messages == old(messages) + [Message(DecimalString(nowMillis + 1), BotResponse(sentText), BotSender, nowMillis)]
      ensures inputMessage == old(inputMessage) && !isTyping
    {
      var reply := GetBotResponse(sentText);
      messages := messages + [Message(DecimalString(nowMillis + 1), reply, BotSender, nowMillis)];
      isTyping := false;
    }
  }
}
