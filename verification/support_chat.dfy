/** The AI support chat page (src/app/pages/AISupportAgent.tsx): an
    append-only transcript, the input box and the typing indicator. A send is
    taken as one atomic step: the clock readings that become message ids and
    the remote service are parameters. */
module SupportChat {
  import opened Wrappers
  import opened Text
  import Gemini

  /** A transcript message; the id comes from the clock (`Date.now()`). */
  datatype Message = Message(id: int, role: Gemini.Role, content: string)

  const GreetingText: string :=
    "Hi there. I'm your PeaceNet AI companion. I'm here to listen, offer support, and help you navigate difficult digital situations. I'm not a therapist, but I can provide resources and strategies. How are you feeling today?"

  /** The one message of `INITIAL_MESSAGES`. */
  const Greeting: Message := Message(1, Gemini.Bot, GreetingText)

  const InitialMessages: seq<Message> := [Greeting]

  // The two fixed bot texts are written as concatenations so that the
  // verifier can see their first characters (it keeps long literals whole).

  /** Substituted for an empty reply. */
  const EmptyReplyText: string := "I'm here with you. " + "Could you share a bit more?"

  /** Appended whenever the reply request throws, whatever the cause. */
  const FailureText: string :=
    "I'm sorry, " + "I'm having trouble responding right now. Please try again in a moment."

  const SuggestedPrompts: seq<string> := [
    "I received a hateful message.",
    "How can I help a bullied friend?",
    "I feel overwhelmed by social media.",
    "Is this considered hate speech?"
  ]

  /** The transcript as handed to the service client: the same messages in the
      same order, without their ids. */
  function History(messages: seq<Message>): (r: seq<Gemini.ChatMessage>)
    ensures |r| == |messages|
    ensures forall i :: 0 <= i < |r| ==>
      r[i].role == messages[i].role && r[i].content == messages[i].content
  {
    if messages == [] then [] else [Gemini.ChatMessage(messages[0].role, messages[0].content)] + History(messages[1..])
  }

  /** The bot's text for a reply outcome: the reply itself when it is a
      non-empty string, the prompt for more detail when it is empty, the fixed
      apology when the request threw. */
  function BotText(reply: Result<string, Gemini.Error>): (t: string)
    ensures reply.Failure? ==> t == FailureText
    ensures reply.Success? && reply.value != "" ==> t == reply.value
    ensures reply.Success? && reply.value == "" ==> t == EmptyReplyText
  {
    match reply
    case Failure(_) => FailureText
    case Success(text) => if text != "" then text else EmptyReplyText
  }

  /** Whatever the key, the transcript and the service do, the bot never
      posts an empty or whitespace-only message. */
  lemma BotTextNeverBlank(apiKey: Option<string>, history: seq<Gemini.ChatMessage>,
                          service: Gemini.GenerateRequest -> Gemini.ServiceResponse)
    ensures !IsBlank(BotText(Gemini.GeminiReply(apiKey, history, service)))
  {
    var reply := Gemini.GeminiReply(apiKey, history, service);
    if reply.Success? && reply.value != "" {
      TrimmedNonEmptyIsNotBlank(reply.value);
    } else if reply.Success? {
      assert EmptyReplyText[0] == 'I';
    } else {
      assert FailureText[0] == 'I';
    }
  }

  /** The suggested-prompt row is shown while fewer than three messages
      exist: on a fresh or cleared transcript it is shown (ChatSession.Send
      hides it after a send). */
  function SuggestionsVisible(messages: seq<Message>): (b: bool)
    ensures messages == InitialMessages ==> b
  {
    |messages| < 3
  }

  /** Every suggested prompt has a visible first character, so clicking one
      (`handleSend(prompt)`) always sends it: Send's `sent <==> !IsBlank(text)`
      holds with `sent` true. */
  lemma PromptsAreNotBlank()
    ensures forall p :: p in SuggestedPrompts ==> !IsBlank(p)
  {
  }

  class ChatSession {
    /** The key the service client was configured with. */
    const apiKey: Option<string>
    var messages: seq<Message>
    var input: string
    var isTyping: bool

    /** The transcript always opens with the greeting: it starts as the
        greeting, only grows at the end, and Clear restores it. */
    ghost predicate Valid()
      reads this
    {
      |messages| >= 1 && messages[0] == Greeting
    }

    constructor(apiKey: Option<string>)
      ensures Valid()
      ensures this.apiKey == apiKey
      ensures messages == InitialMessages && input == "" && !isTyping
    {
      this.apiKey := apiKey;
      messages := InitialMessages;
      input := "";
      isTyping := false;
    }

    /** The input box's `onChange`. */
    method SetInput(text: string)
      modifies this
      ensures input == text
      ensures messages == old(messages) && isTyping == old(isTyping)
    {
      input := text;
    }

    /** The form's submit button is enabled only for non-blank input while no
        reply is awaited. */
    function CanSubmit(): (b: bool)
      reads this
      ensures b <==> !IsBlank(input) && !isTyping
    {
      !TrimsToEmpty(input) && !isTyping
    }

    /** The synchronous first half of `handleSend`. Blank text changes nothing
        and sends nothing; otherwise the user message is appended, the input
        cleared, the typing indicator set, and the request (the transcript
        before the send followed by the new message) is returned. */
    method BeginSend(text: string, sentAt: int) returns (request: Option<seq<Message>>)
      requires Valid()
      modifies this
      ensures Valid()
      ensures IsBlank(text) ==> request == None && messages == old(messages)
                                && input == old(input) && isTyping == old(isTyping)
      ensures !IsBlank(text) ==>
        && messages == old(messages) + [Message(sentAt, Gemini.User, text)]
        && input == "" && isTyping
        && request == Some(messages)
    {
      var blank := CheckBlank(text);
      if blank {
        return None;
      }
      var userMsg := Message(sentAt, Gemini.User, text);
      messages := messages + [userMsg];
      input := "";
      isTyping := true;
      request := Some(messages);
    }

    /** The second half of `handleSend`, once the reply request has settled:
        exactly one bot message is appended (the reply, the empty-reply
        substitute, or the apology) and the typing indicator is cleared. */
    method CompleteSend(reply: Result<string, Gemini.Error>, repliedAt: int)
      requires Valid()
      modifies this
      ensures Valid()
      ensures messages == old(messages) + [Message(repliedAt + 1, Gemini.Bot, BotText(reply))]
      ensures input == old(input) && !isTyping
    {
      var content;
      match reply {
        case Success(text) =>
          content := if text != "" then text else EmptyReplyText;
        case Failure(_) =>
          content := FailureText;
      }
      messages := messages + [Message(repliedAt + 1, Gemini.Bot, content)];
      isTyping := false;
    }

    /** `handleSend` as one step. Blank text is a no-op. Otherwise the
        transcript grows by exactly two messages, the user's text and then the
        bot's answer to the whole transcript including that text; every earlier
        message is kept; the input is cleared and the typing indicator is off
        again, whether the request succeeded or failed. */
    method Send(text: string, sentAt: int, repliedAt: int,
                service: Gemini.GenerateRequest -> Gemini.ServiceResponse) returns (sent: bool)
      requires Valid()
      modifies this
      ensures Valid()
      ensures sent <==> !IsBlank(text)
      ensures !sent ==> messages == old(messages) && input == old(input) && isTyping == old(isTyping)
      ensures sent ==>
        var history := old(messages) + [Message(sentAt, Gemini.User, text)];
        && messages == history
                       + [Message(repliedAt + 1, Gemini.Bot, BotText(Gemini.GeminiReply(apiKey, History(history), service)))]
        && input == "" && !isTyping
      ensures sent ==> !SuggestionsVisible(messages)
    {
      var request := BeginSend(text, sentAt);
      if request == None {
        return false;
      }
      var reply := Gemini.GeminiReply(apiKey, History(request.value), service);
      CompleteSend(reply, repliedAt);
      sent := true;
    }

    /** "Clear Chat": back to the greeting alone, whatever the state. */
    method Clear()
      modifies this
      ensures Valid()
      ensures messages == InitialMessages
      ensures input == old(input) && isTyping == old(isTyping)
    {
      messages := InitialMessages;
    }
  }

  /** The prompts are offered on a fresh or cleared transcript, and the first
      completed send hides them. */
  lemma FirstSendHidesSuggestions(userText: string, botText: string, sentAt: int, repliedAt: int)
    ensures SuggestionsVisible(InitialMessages)
    ensures !SuggestionsVisible(InitialMessages + [Message(sentAt, Gemini.User, userText)]
                                               + [Message(repliedAt + 1, Gemini.Bot, botText)])
  {
  }
}
