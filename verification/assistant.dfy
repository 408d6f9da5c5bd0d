/**
 The AI assistant screen: a message log, an input field, a send handler
 that ignores blank text, a canned-reply classifier that picks a reply by
 keywords in the lower-cased question, and a voice-recording toggle.
 */
module Assistant {

  import opened Text

  datatype Sender = User | Bot

  datatype Message = Message(id: string, text: string, sender: Sender)

  datatype AssistantState = AssistantState(messages: seq<Message>, input: string, isRecording: bool)

  /** The assistant's opening message. */
  const Greeting: string :=
    "Привет! Я ваш умный помощник. Могу помочь создать заявку, ответить на вопросы о доме или подсказать, что делать в различных ситуациях."

  function Init(): (s: AssistantState)
    ensures |s.messages| == 1 && s.messages[0].sender == Bot
    ensures s.input == [] && !s.isRecording
  {
    AssistantState([Message("1", Greeting, Bot)], "", false)
  }

  /** The text a send uses: the explicit argument unless it is missing or
      empty (JavaScript `text || input`); the empty string stands for a
      missing argument. */
  function MessageText(text: string, input: string): (r: string)
    ensures text != [] ==> r == text
    ensures text == [] ==> r == input
  {
    if text != [] then text else input
  }

  /** The send handler. `id` stands for the clock reading used as message id.
      A send whose text is blank after trimming changes nothing; otherwise
      exactly one user message carrying the untrimmed text is appended and
      the input is cleared. The bot's reply arrives later; see `Classify`. */
  function HandleSend(s: AssistantState, text: string, id: string): (r: AssistantState)
    ensures IsBlank(MessageText(text, s.input)) ==> r == s
    ensures !IsBlank(MessageText(text, s.input)) ==>
      && |r.messages| == |s.messages| + 1
      && r.messages[..|s.messages|] == s.messages
      && r.messages[|s.messages|] == Message(id, MessageText(text, s.input), User)
      && r.input == []
      && r.isRecording == s.isRecording
  {
    var messageText := MessageText(text, s.input);
    if IsBlank(messageText) then s
    else s.(messages := s.messages + [Message(id, messageText, User)], input := "")
  }

  /** A send of a whitespace-only text, or with no text and a
      whitespace-only input, does nothing. */
  lemma WhitespaceSendIgnored(s: AssistantState, text: string, id: string)
    requires AllWhitespace(MessageText(text, s.input))
    ensures HandleSend(s, text, id) == s
  {
  }

  /** The microphone button flips the recording flag; it reports whether
      recording has just started (which raises the "listening" toast). */
  function HandleVoiceInput(s: AssistantState): (r: (AssistantState, bool))
    ensures r.0.isRecording == !s.isRecording
    ensures r.0.messages == s.messages && r.0.input == s.input
    ensures r.1 <==> r.0.isRecording
  {
    (s.(isRecording := !s.isRecording), !s.isRecording)
  }

  /** Pressing the microphone twice restores the state. */
  lemma VoiceToggleTwice(s: AssistantState)
    ensures HandleVoiceInput(HandleVoiceInput(s).0).0 == s
  {
  }

  /** The canned reply the assistant chooses. */
  datatype Topic = Leak | Electricity | Payment | WaterOutage | Fallback

  /** The keywords that select each topic. */
  function Keywords(t: Topic): seq<string> {
    match t
    case Leak => ["протек", "течет"]
    case Electricity => ["свет", "электр"]
    case Payment => ["оплат"]
    case WaterOutage => ["вод", "отключ"]
    case Fallback => []
  }

  /** Topics are tried in this order; the fallback comes last. */
  function Rank(t: Topic): nat {
    match t
    case Leak => 0
    case Electricity => 1
    case Payment => 2
    case WaterOutage => 3
    case Fallback => 4
  }

  /** The lower-cased question includes one of the topic's keywords. */
  predicate Mentions(question: string, t: Topic) {
    exists k :: 0 <= k < |Keywords(t)| && Contains(Lower(question), Keywords(t)[k])
  }

  /** `getAIResponse`, reduced to which reply it picks: its keyword tests,
      in their order, on the lower-cased question. The reply chosen is the
      first topic in rank order whose keywords the lower-cased question
      includes, or the fallback when it includes none. */
  function Classify(question: string): (r: Topic)
    ensures r != Fallback ==> Mentions(question, r)
    ensures forall u :: Rank(u) < Rank(r) ==> !Mentions(question, u)
  {
    var q := Lower(question);
    assert Mentions(question, Leak) <==> Contains(q, "протек") || Contains(q, "течет") by {
      assert Keywords(Leak)[0] == "протек" && Keywords(Leak)[1] == "течет";
    }
    assert Mentions(question, Electricity) <==> Contains(q, "свет") || Contains(q, "электр") by {
      assert Keywords(Electricity)[0] == "свет" && Keywords(Electricity)[1] == "электр";
    }
    assert Mentions(question, Payment) <==> Contains(q, "оплат") by {
      assert Keywords(Payment)[0] == "оплат";
    }
    assert Mentions(question, WaterOutage) <==> Contains(q, "вод") || Contains(q, "отключ") by {
      assert Keywords(WaterOutage)[0] == "вод" && Keywords(WaterOutage)[1] == "отключ";
    }
    if Contains(q, "протек") || Contains(q, "течет") then Leak
    else if Contains(q, "свет") || Contains(q, "электр") then Electricity
    else if Contains(q, "оплат") then Payment
    else if Contains(q, "вод") || Contains(q, "отключ") then WaterOutage
    else Fallback
  }

  /** A question that mentions no topic gets the fallback reply, and one that
      mentions a topic never does. */
  lemma FallbackIffNoTopic(question: string)
    ensures Classify(question) == Fallback <==>
      forall u :: u != Fallback ==> !Mentions(question, u)
  {
  }

  /** Asking the same question in another letter case picks the same reply. */
  lemma ClassifyIgnoresCase(question: string)
    ensures Classify(Lower(question)) == Classify(question)
  {
    LowerIdempotent(question);
  }

  /** The first quick-question button, and the phrase the voice input
      sends, pick the leak reply. */
  lemma LeakQuestionTopic()
    ensures Classify("Протекает потолок") == Leak
    ensures Classify("Протекает потолок в ванной") == Leak
  {
    assert OccursAt(Lower("Протекает потолок"), "протек", 0);
    assert OccursAt(Lower("Протекает потолок в ванной"), "протек", 0);
  }

  /** The second quick-question button picks the electricity reply. */
  lemma LightQuestionTopic()
    ensures Classify("Не работает свет") == Electricity
  {
    var q := "не работает свет";
    assert Lower("Не работает свет") == q;
    MissingCharExcludes(q, "протек", 'п');
    MissingCharExcludes(q, "течет", 'ч');
    assert OccursAt(q, "свет", 12);
  }

  /** The third quick-question button picks the payment reply. */
  lemma PaymentQuestionTopic()
    ensures Classify("Как оплатить?") == Payment
  {
    var q := "как оплатить?";
    assert Lower("Как оплатить?") == q;
    MissingCharExcludes(q, "протек", 'р');
    MissingCharExcludes(q, "течет", 'е');
    MissingCharExcludes(q, "свет", 'с');
    MissingCharExcludes(q, "электр", 'э');
    assert OccursAt(q, "оплат", 4);
  }

  /** The fourth quick-question button picks the water-outage reply. */
  lemma WaterQuestionTopic()
    ensures Classify("Когда отключат воду?") == WaterOutage
  {
    var q := "когда отключат воду?";
    WaterQuestionLowered();
    MissingCharExcludes(q, "протек", 'п');
    MissingCharExcludes(q, "течет", 'е');
    MissingCharExcludes(q, "свет", 'с');
    MissingCharExcludes(q, "электр", 'э');
    MissingCharExcludes(q, "оплат", 'п');
    assert OccursAt(q, "вод", 15);
  }

  lemma WaterQuestionLowered()
    ensures Lower("Когда отключат воду?") == "когда отключат воду?"
  {
  }

  /** Keywords match inside longer words: a question about a sparking wire
      ("провод" contains "вод") gets the water-outage reply. */
  lemma WireQuestionGetsWaterReply()
    ensures Classify("Искрит провод") == WaterOutage
  {
    var q := "искрит провод";
    assert Lower("Искрит провод") == q;
    MissingCharExcludes(q, "протек", 'е');
    MissingCharExcludes(q, "течет", 'е');
    MissingCharExcludes(q, "свет", 'е');
    MissingCharExcludes(q, "электр", 'э');
    MissingCharExcludes(q, "оплат", 'а');
    assert OccursAt(q, "вод", 10);
  }
}
