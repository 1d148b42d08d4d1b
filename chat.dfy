/**
 * The chat widget: an in-memory transcript of turns, the text box and a
 * flag that is set while a request to the text-generation endpoint is in
 * flight. It is a two-state machine. Idle accepts a send. Awaiting-reply
 * ignores sends until the request's single outcome arrives. The transcript
 * is append-only and, from the opening greeting on, alternates assistant
 * and user turns.
 *
 * The request itself is not performed here: an accepted send returns the
 * request it would submit, and the outcome of the call (the first content
 * segment's text, if the response had one, or a thrown error) is passed
 * back in through Complete.
 */
module Chat {
  import opened Wrappers
  import opened Text

  datatype Role = User | Assistant
  datatype Turn = Turn(role: Role, content: string)

  /** The body of the request an accepted send submits (the fixed persona prompt aside). */
  datatype Request = Request(model: string, maxTokens: nat, messages: seq<Turn>)

  /**
   * What the call produced: `Replied(first)` when a response body was
   * parsed, with `first` the text of its first content segment if there
   * was one; `Threw` when anything in the request's try block threw: the
   * fetch, the parsing, or reading the content of a body that parsed to null.
   */
  datatype Outcome = Replied(first: Option<string>) | Threw

  const ModelId: string := "claude-sonnet-4-20250514"
  const MaxTokens: nat := 400

  const GreetingText: string :=
    "Hey! \U{1F44B} I'm Zara, your CFY assistant. I can help you learn about our AI automation services, answer questions, or guide you to the right section. What brings you here today?"
  /** The reply shown when a response came back without usable text. */
  const TroubleConnecting: string :=
    "Sorry, I had trouble connecting. Please reach out on WhatsApp directly! \U{1F4F1}"
  /** The reply shown when the request failed outright. */
  const LostConnection: string :=
    "Looks like I lost connection \U{1F605} You can reach us directly on WhatsApp at +27 61 922 9670!"

  /** The suggestions offered under the greeting; each sends its own text, untrimmed. */
  const QuickReplies: seq<string> :=
    ["What services do you offer?", "How much does it cost?", "Book a consultation", "Show me your work"]

  /** The opening assistant turn. */
  function Greeting(): Turn {
    Turn(Assistant, GreetingText)
  }

  /**
   * The assistant turn an outcome produces: the first segment's text when it
   * is present and non-empty, one fixed apology when the response carried no
   * usable text, and another when the request threw.
   */
  function ReplyText(outcome: Outcome): (reply: string)
    ensures reply != []
    ensures outcome.Threw? ==> reply == LostConnection
    ensures outcome.Replied? && outcome.first.Some? && outcome.first.value != [] ==> reply == outcome.first.value
    ensures outcome.Replied? && (outcome.first == None || outcome.first == Some([])) ==> reply == TroubleConnecting
  {
    match outcome
    case Threw => LostConnection
    case Replied(first) =>
      if first.Some? && first.value != "" then first.value else TroubleConnecting
  }

  /** The role of the turn at position `i`: the greeting and every reply at even positions, the user's turns at odd ones. */
  function RoleAt(i: nat): Role {
    if i % 2 == 0 then Assistant else User
  }

  /** A transcript that starts with the greeting, alternates roles and has no empty turn. */
  ghost predicate WellFormed(ms: seq<Turn>) {
    && |ms| >= 1
    && ms[0] == Greeting()
    && forall i :: 0 <= i < |ms| ==> ms[i].role == RoleAt(i) && ms[i].content != []
  }

  /** Appending a non-empty turn of the role due next keeps a transcript well formed. */
  lemma ExtendWellFormed(ms: seq<Turn>, t: Turn)
    requires WellFormed(ms)
    requires t.role == RoleAt(|ms|) && t.content != []
    ensures WellFormed(ms + [t])
  {
  }

  class Chatbot {
    /** The transcript on show and sent with every request. */
    var messages: seq<Turn>
    /** The text box. */
    var input: string
    /** Set while a request is in flight. */
    var loading: bool

    /** A request is in flight exactly when the transcript ends with an unanswered user turn. */
    ghost predicate Valid()
      reads this
    {
      WellFormed(messages) && (loading <==> |messages| % 2 == 0)
    }

    /** The widget opens idle, with the greeting alone and an empty text box. */
    constructor ()
      ensures Valid()
      ensures messages == [Greeting()] && input == [] && !loading
    {
      messages := [Greeting()];
      input := "";
      loading := false;
    }

    /** Typing into the text box. */
    method SetInput(text: string)
      modifies this`input
      ensures input == text
    {
      input := text;
    }

    /**
     * sendText: rejected, changing nothing, when `text` is empty or a request
     * is in flight. Otherwise the user turn is appended, the text box cleared,
     * the widget enters the awaiting-reply state, and the request carries the
     * whole transcript including the new turn.
     */
    method SendText(text: string) returns (request: Option<Request>)
      requires Valid()
      modifies this
      ensures Valid()
      ensures text == [] || old(loading) ==>
        && request == None
        && messages == old(messages) && input == old(input) && loading == old(loading)
      ensures text != [] && !old(loading) ==>
        && messages == old(messages) + [Turn(User, text)]
        && input == [] && loading
        && request == Some(Request(ModelId, MaxTokens, messages))
    {
      if text == "" || loading {
        return None;
      }
      input := "";
      ExtendWellFormed(messages, Turn(User, text));
      messages := messages + [Turn(User, text)];
      loading := true;
      request := Some(Request(ModelId, MaxTokens, messages));
    }

    /** send: the text box's content, trimmed, goes through sendText; blank input is rejected. */
    method Send() returns (request: Option<Request>)
      requires Valid()
      modifies this
      ensures Valid()
      ensures AllWhiteSpace(old(input)) || old(loading) ==>
        && request == None
        && messages == old(messages) && input == old(input) && loading == old(loading)
      ensures !AllWhiteSpace(old(input)) && !old(loading) ==>
        && messages == old(messages) + [Turn(User, Trim(old(input)))]
        && input == [] && loading
        && request == Some(Request(ModelId, MaxTokens, messages))
    {
      TrimEmptyIffBlank(input);
      request := SendText(Trim(input));
    }

    /** The quick-reply suggestions are offered only while the greeting is the whole transcript. */
    function QuickRepliesShown(): (shown: bool)
      reads this
      requires Valid()
      ensures shown <==> messages == [Greeting()]
    {
      |messages| <= 2 && !loading
    }

    /** Pressing a suggestion sends its text; whenever the suggestions are offered, this is accepted. */
    method ChooseQuickReply(i: nat) returns (request: Option<Request>)
      requires Valid() && QuickRepliesShown()
      requires i < |QuickReplies|
      modifies this
      ensures Valid()
      ensures messages == [Greeting(), Turn(User, QuickReplies[i])]
      ensures input == [] && loading
      ensures request == Some(Request(ModelId, MaxTokens, messages))
    {
      request := SendText(QuickReplies[i]);
    }

    /**
     * The in-flight request settles: exactly one assistant turn, chosen by
     * ReplyText, is appended, earlier turns stay as they were, and the widget
     * is idle again.
     */
    method Complete(outcome: Outcome)
      requires Valid() && loading
      modifies this`messages, this`loading
      ensures Valid()
      ensures messages == old(messages) + [Turn(Assistant, ReplyText(outcome))]
      ensures !loading
    {
      var reply := ReplyText(outcome);
      ExtendWellFormed(messages, Turn(Assistant, reply));
      messages := messages + [Turn(Assistant, reply)];
      loading := false;
    }
  }
}
