/**
 * The chat screen of src/components/Agent.js: it classifies each reply by
 * keyword, sends the system prompt, a bounded window of the conversation
 * and the new user message to the agent route, and appends the user's
 * message and then the reply (or an error message) to the conversation.
 * As in the analysis panels the send is split at its `await`. The clock's
 * text, the random confidence, the system prompt (built from live prices)
 * and the markdown-stripping `replace` chain are inputs.
 */
module AgentChat {
  import opened Base
  import opened JsText
  import opened ReplyScan

  /** One conversation entry; `kind` is the `type` field of assistant entries. */
  datatype Message = Message(
    role: string,
    content: string,
    timestamp: Option<string>,
    kind: Option<string>,
    confidence: Option<int>)

  const MessageKinds := ["bullish", "bearish", "alert", "analysis", "neutral"]
  const InitGreeting :=
    "WLFI AI Core Agent online. Neural networks synchronized with global markets. Ready for elite financial intelligence."
  const ConnectionError := "Connection error. WLFI AI neural pathways temporarily disrupted. Please try again."
  /** How many earlier entries a request carries. */
  const HistoryLimit := 8

  /** The content mentions one of the words, after lower-casing. */
  predicate MentionsAny(content: string, words: seq<string>) {
    exists k :: 0 <= k < |words| && Includes(ToLower(content), words[k])
  }

  lemma MentionsTwo(content: string, a: string, b: string)
    ensures MentionsAny(content, [a, b]) <==> Includes(ToLower(content), a) || Includes(ToLower(content), b)
  {
    var words := [a, b];
    if Includes(ToLower(content), a) { assert words[0] == a; }
    if Includes(ToLower(content), b) { assert words[1] == b; }
  }

  lemma MentionsThree(content: string, a: string, b: string, c: string)
    ensures MentionsAny(content, [a, b, c]) <==>
      Includes(ToLower(content), a) || Includes(ToLower(content), b) || Includes(ToLower(content), c)
  {
    var words := [a, b, c];
    if Includes(ToLower(content), a) { assert words[0] == a; }
    if Includes(ToLower(content), b) { assert words[1] == b; }
    if Includes(ToLower(content), c) { assert words[2] == c; }
  }

  /**
   * `getMessageType(content)`: the first of bullish, bearish, alert and
   * analysis whose keywords the lower-cased content mentions, else neutral.
   */
  function GetMessageType(content: string): (r: string)
    ensures r in MessageKinds
    ensures r == "bullish" <==> MentionsAny(content, ["bullish", "accumulate", "buy"])
    ensures r == "bearish" <==>
      !MentionsAny(content, ["bullish", "accumulate", "buy"]) && MentionsAny(content, ["bearish", "sell", "avoid"])
    ensures r == "alert" <==>
      && !MentionsAny(content, ["bullish", "accumulate", "buy"]) && !MentionsAny(content, ["bearish", "sell", "avoid"])
      && MentionsAny(content, ["alert", "warning"])
    ensures r == "neutral" <==>
      && !MentionsAny(content, ["bullish", "accumulate", "buy"]) && !MentionsAny(content, ["bearish", "sell", "avoid"])
      && !MentionsAny(content, ["alert", "warning"]) && !MentionsAny(content, ["analysis", "data"])
  {
    MentionsThree(content, "bullish", "accumulate", "buy");
    MentionsThree(content, "bearish", "sell", "avoid");
    MentionsTwo(content, "alert", "warning");
    MentionsTwo(content, "analysis", "data");
    var lower := ToLower(content);
    if Includes(lower, "bullish") || Includes(lower, "accumulate") || Includes(lower, "buy") then "bullish"
    else if Includes(lower, "bearish") || Includes(lower, "sell") || Includes(lower, "avoid") then "bearish"
    else if Includes(lower, "alert") || Includes(lower, "warning") then "alert"
    else if Includes(lower, "analysis") || Includes(lower, "data") then "analysis"
    else "neutral"
  }

  /** Lower-casing forgets what upper-casing did. */
  lemma LowerOfUpper(s: string)
    ensures ToLower(ToUpper(s)) == ToLower(s)
  {
    var a := ToLower(ToUpper(s));
    var b := ToLower(s);
    forall k | 0 <= k < |s| ensures a[k] == b[k] {
      assert a[k] == LowerChar(UpperChar(s[k]));
    }
  }

  /** The classification ignores the case of the reply. */
  lemma MessageTypeIgnoresCase(content: string)
    ensures GetMessageType(ToUpper(content)) == GetMessageType(content)
  {
    LowerOfUpper(content);
  }

  /** A reply that mentions buying is bullish whatever else it mentions: bullish keywords win. */
  lemma BuyingWins(content: string)
    requires Includes(ToLower(content), "buy")
    ensures GetMessageType(content) == "bullish"
  {
    MentionsThree(content, "bullish", "accumulate", "buy");
  }

  /** `conversation.slice(-8)`: the last eight entries, or all of them when there are fewer. */
  function HistoryWindow(conversation: seq<Message>): (r: seq<Message>)
    ensures |r| == if |conversation| < HistoryLimit then |conversation| else HistoryLimit
    ensures r == conversation[|conversation| - |r|..]
  {
    if |conversation| <= HistoryLimit then conversation
    else conversation[|conversation| - HistoryLimit..]
  }

  function SystemMessage(prompt: string): Message {
    Message("system", prompt, None, None, None)
  }

  function UserMessage(text: string, time: string): Message {
    Message("user", text, Some(time), None, None)
  }

  function InitMessage(time: string): Message {
    Message("assistant", InitGreeting, Some(time), Some("system_init"), Some(98))
  }

  function ErrorMessage(time: string): Message {
    Message("assistant", ConnectionError, Some(time), Some("error"), None)
  }

  /** `!input.trim() || loading`: the send does nothing. */
  predicate SendBlocked(input: string, loading: bool) {
    Trim(input) == "" || loading
  }

  /** The send is blocked by the input exactly when the input is made only of whitespace. */
  lemma BlockedByBlankInput(input: string)
    ensures SendBlocked(input, false) <==> IsBlank(input)
  {
    TrimEmptyIffBlank(input);
  }

  /** The message list of a request: the prompt, the history window, the new user message. */
  function RequestMessages(prompt: string, conversation: seq<Message>, user: Message): seq<Message> {
    [SystemMessage(prompt)] + HistoryWindow(conversation) + [user]
  }

  /**
   * A request carries at most ten messages: the prompt first, the user's
   * new message last, and between them the latest entries of the
   * conversation, at most eight.
   */
  lemma RequestShape(prompt: string, conversation: seq<Message>, user: Message)
    ensures var r := RequestMessages(prompt, conversation, user);
      && 2 <= |r| <= HistoryLimit + 2
      && r[0] == SystemMessage(prompt) && r[|r| - 1] == user
      && r[1..|r| - 1] == HistoryWindow(conversation)
      && (|conversation| <= HistoryLimit ==> r[1..|r| - 1] == conversation)
  {
    var r := RequestMessages(prompt, conversation, user);
    assert r[1..|r| - 1] == HistoryWindow(conversation);
  }

  /** The chat screen's state. */
  class ChatScreen {
    var conversation: seq<Message>
    var input: string
    var loading: bool
    var isTyping: bool
    var mode: string

    constructor(time: string)
      ensures conversation == [InitMessage(time)]
      ensures input == "" && !loading && !isTyping && mode == "HUNTING"
    {
      conversation := [InitMessage(time)];
      input := "";
      loading := false;
      isTyping := false;
      mode := "HUNTING";
    }

    /** `setInput(text)`: typing, or picking a quick action. */
    method SetInput(text: string)
      modifies this
      ensures input == text
      ensures conversation == old(conversation) && loading == old(loading)
      ensures isTyping == old(isTyping) && mode == old(mode)
    {
      input := text;
    }

    /**
     * The synchronous part of `handleSendMessage`: when the input is blank
     * or a request is in flight nothing happens and nothing is sent;
     * otherwise the user's message is appended, the input cleared, the
     * screen marked busy, and the request's messages are returned.
     */
    method BeginSend(prompt: string, time: string) returns (request: Option<seq<Message>>)
      modifies this
      ensures SendBlocked(old(input), old(loading)) ==>
        && request.None? && conversation == old(conversation) && input == old(input)
        && loading == old(loading) && isTyping == old(isTyping) && mode == old(mode)
      ensures !SendBlocked(old(input), old(loading)) ==>
        && request == Some(RequestMessages(prompt, old(conversation), UserMessage(old(input), time)))
        && conversation == old(conversation) + [UserMessage(old(input), time)]
        && input == "" && loading && isTyping && mode == "ANALYZING"
    {
      if SendBlocked(input, loading) {
        request := None;
      } else {
        var user := UserMessage(input, time);
        request := Some(RequestMessages(prompt, conversation, user));
        conversation := conversation + [user];
        input := "";
        loading := true;
        isTyping := true;
        mode := "ANALYZING";
      }
    }

    /**
     * The rest of `handleSendMessage` once the response is in: a reply is
     * appended, classified on its raw text and shown cleaned; a failure
     * appends the connection-error message; a response without a reply
     * appends nothing. The screen is idle again in every case, and the
     * input is left as the user has typed it meanwhile.
     */
    method FinishSend(delivery: Delivery, clean: string -> string, time: string, confidence: int)
      requires 80 <= confidence < 95
      modifies this
      ensures HasReply(delivery) ==>
        conversation == old(conversation) + [Message("assistant", clean(delivery.reply.value), Some(time),
                                                      Some(GetMessageType(delivery.reply.value)), Some(confidence))]
      ensures delivery.Undelivered? ==> conversation == old(conversation) + [ErrorMessage(time)]
      ensures delivery.Delivered? && !HasReply(delivery) ==> conversation == old(conversation)
      ensures !loading && !isTyping && mode == "HUNTING" && input == old(input)
    {
      match delivery {
        case Undelivered =>
          conversation := conversation + [ErrorMessage(time)];
        case Delivered(reply) =>
          if reply.Some? && reply.value != "" {
            var kind := GetMessageType(reply.value);
            conversation := conversation + [Message("assistant", clean(reply.value), Some(time), Some(kind), Some(confidence))];
          }
      }
      isTyping := false;
      loading := false;
      mode := "HUNTING";
    }
  }
}
