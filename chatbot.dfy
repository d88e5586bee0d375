/** The help chat widget (components/chatbot.tsx): a keyword dispatch that
    picks one of six canned answers from an English or a Hindi table, and
    the conversation state that a send and the delayed bot reply extend. */
module Chatbot {
  import opened Text

  // ---------------------------------------------------------------------
  // Response tables

  datatype Topic = Greeting | WeaverTopic | Saree | Price | Help | Default

  /** One language's six canned answers. */
  datatype Answers = Answers(greeting: string, weaver: string, saree: string,
                             price: string, help: string, fallback: string)
  {
    function Pick(topic: Topic): string {
      match topic
      case Greeting => greeting
      case WeaverTopic => weaver
      case Saree => saree
      case Price => price
      case Help => help
      case Default => fallback
    }

    function Entries(): seq<string> {
      [greeting, weaver, saree, price, help, fallback]
    }
  }

  /** The `responses` object: an English and a Hindi table. */
  datatype Responses = Responses(en: Answers, hi: Answers)

  const Table: Responses := Responses(
    Answers(
      "Hello! I'm here to help you with LoomLakshmi. What would you like to know?",
      "I can help you connect with talented weavers. Would you like to browse by region or specialty?",
      "We have beautiful handwoven sarees in various patterns like Banarasi, Kanjivaram, and Bandhani. What style interests you?",
      "Our sarees range from ₹2,000 to ₹50,000 depending on the complexity and materials. Would you like specific pricing?",
      "I can assist you with:\n• Finding weavers\n• Saree information\n• Pricing details\n• Platform navigation\n\nWhat would you like to explore?",
      "I understand you're interested in our platform. Feel free to ask about weavers, sarees, or how to get started!"),
    Answers(
      "नमस्ते! मैं लूमलक्ष्मी के साथ आपकी मदद के लिए यहाँ हूँ। आप क्या जानना चाहते हैं?",
      "मैं आपको प्रतिभाशाली बुनकरों से जुड़ने में मदद कर सकता हूँ। क्या आप क्षेत्र या विशेषता के अनुसार देखना चाहते हैं?",
      "हमारे पास बनारसी, कांजीवरम और बंधनी जैसे विभिन्न पैटर्न में सुंदर हस्तनिर्मित साड़ियाँ हैं। कौन सी शैली आपको पसंद है?",
      "हमारी साड़ियों की कीमत जटिलता और सामग्री के आधार पर ₹2,000 से ₹50,000 तक है। क्या आपको विशिष्ट मूल्य निर्धारण चाहिए?",
      "मैं इनमें आपकी सहायता कर सकता हूँ:\n• बुनकर खोजना\n• साड़ी की जानकारी\n• मूल्य विवरण\n• प्लेटफॉर्म नेवीगेशन\n\nआप क्या देखना चाहते हैं?",
      "मैं समझता हूँ कि आप हमारे प्लेटफॉर्म में रुचि रखते हैं। बुनकरों, साड़ियों या शुरुआत करने के बारे में बेझिझक पूछें!"))

  /** `responses[lang] || responses.en`: "hi" selects Hindi, every other
      code English. */
  function LangResponses(responses: Responses, lang: string): (a: Answers)
    ensures lang == "hi" ==> a == responses.hi
    ensures lang != "hi" ==> a == responses.en
  {
    if lang == "hi" then responses.hi else responses.en
  }

  // ---------------------------------------------------------------------
  // Keyword dispatch

  /** The words that select each topic: none for Default, and never the
      empty word, which every message would contain. */
  function Keywords(topic: Topic): (r: seq<string>)
    ensures r == [] <==> topic == Default
    ensures forall k :: k in r ==> |k| > 0
  {
    match topic
    case Greeting => ["hello", "hi", "नमस्ते"]
    case WeaverTopic => ["weaver", "बुनकर"]
    case Saree => ["saree", "साड़ी"]
    case Price => ["price", "cost", "कीमत"]
    case Help => ["help", "मदद"]
    case Default => []
  }

  /** The order in which the topics are tried; Default comes last and has no
      keywords. */
  function Rank(topic: Topic): nat {
    match topic
    case Greeting => 0
    case WeaverTopic => 1
    case Saree => 2
    case Price => 3
    case Help => 4
    case Default => 5
  }

  /** The lower-cased message contains one of the topic's keywords. */
  predicate Mentions(lower: string, topic: Topic)
    ensures Mentions(lower, topic) ==> topic != Default && |lower| > 0
  {
    exists k | k in Keywords(topic) :: Contains(lower, k)
  }

  /** A topic is the first one, in rank order, whose keywords occur in the
      lower-cased message; Default when none does. */
  ghost predicate FirstMatch(lower: string, topic: Topic) {
    && (topic != Default ==> Mentions(lower, topic))
    && (forall u :: Rank(u) < Rank(topic) ==> !Mentions(lower, u))
  }

  /** The `if / else if` chain of `getBotResponse` on the lower-cased message. */
  function Classify(message: string): (t: Topic)
    ensures FirstMatch(ToLower(message), t)
  {
    var lower := ToLower(message);
    if Mentions(lower, Greeting) then Greeting
    else if Mentions(lower, WeaverTopic) then WeaverTopic
    else if Mentions(lower, Saree) then Saree
    else if Mentions(lower, Price) then Price
    else if Mentions(lower, Help) then Help
    else Default
  }

  /** Only one topic is the first match, so `Classify` is the whole of it. */
  lemma FirstMatchUnique(message: string, topic: Topic)
    requires FirstMatch(ToLower(message), topic)
    ensures topic == Classify(message)
  {
    var t := Classify(message);
    if Rank(topic) < Rank(t) {
      assert !Mentions(ToLower(message), topic);
    } else if Rank(t) < Rank(topic) {
      assert !Mentions(ToLower(message), t);
    }
  }

  /** `getBotResponse(message, lang)` over a response table. */
  function BotResponse(responses: Responses, message: string, lang: string): (r: string)
    ensures r in LangResponses(responses, lang).Entries()
    ensures r == LangResponses(responses, lang).Pick(Classify(message))
  {
    LangResponses(responses, lang).Pick(Classify(message))
  }

  /** Every language code other than "hi" answers from the English table. */
  lemma UnknownLanguageIsEnglish(responses: Responses, message: string, lang: string)
    requires lang != "hi"
    ensures BotResponse(responses, message, lang) == BotResponse(responses, message, "en")
    ensures BotResponse(responses, message, lang) in responses.en.Entries()
  {
  }

  /** The answer does not depend on the case of the message. */
  lemma ResponseIgnoresCase(responses: Responses, message: string, lang: string)
    ensures BotResponse(responses, message, lang) == BotResponse(responses, ToLower(message), lang)
  {
    ToLowerIdempotent(message);
  }

  /** "hi" is matched as a substring, so any message containing those two
      letters is greeted, whatever else it asks: "this weaver" and
      "shipping cost" both get the greeting. */
  lemma HiShadowsLaterTopics(before: string, after: string)
    ensures Classify(before + "hi" + after) == Greeting
  {
    var m := before + "hi" + after;
    assert ToLower(m) == ToLower(before) + "hi" + ToLower(after);
    ContainsInfix(ToLower(before), "hi", ToLower(after));
  }

  lemma ThisWeaverIsGreeted()
    ensures Classify("this weaver") == Greeting
  {
    HiShadowsLaterTopics("t", "s weaver");
    assert "t" + "hi" + "s weaver" == "this weaver";
  }

  // ---------------------------------------------------------------------
  // Conversation state

  datatype Sender = User | Bot

  datatype Message = Message(id: int, text: string, sender: Sender)

  /** A bot reply scheduled by a send: the id, the message text and the
      language captured when the message was sent. */
  datatype PendingReply = PendingReply(id: int, text: string, lang: string)

  const Welcome: string := "Hello! How can I help you today?"

  class Chat {
    /** The answer tables `getBotResponse` reads. */
    const responses: Responses
    var messages: seq<Message>
    var input: string
    var typing: bool
    /** Replies scheduled but not yet delivered, oldest first. */
    var pending: seq<PendingReply>

    /** Messages are numbered 1, 2, 3, ... in order; the typing indicator is
        on exactly while one reply is scheduled, and that reply takes the
        next number. */
    predicate Valid()
      reads this
    {
      && (forall i :: 0 <= i < |messages| ==> messages[i].id == i + 1)
      && (typing <==> pending != [])
      && (pending != [] ==> |pending| == 1 && pending[0].id == |messages| + 1)
    }

    constructor ()
      ensures responses == Table
      ensures messages == [Message(1, Welcome, Bot)]
      ensures input == "" && !typing && pending == []
      ensures Valid()
    {
      responses := Table;
      messages := [Message(1, Welcome, Bot)];
      input := "";
      typing := false;
      pending := [];
    }

    /** The input's `onChange`. */
    method Edit(text: string)
      modifies this
      ensures input == text
      ensures messages == old(messages) && typing == old(typing) && pending == old(pending)
      ensures old(Valid()) ==> Valid()
    {
      input := text;
    }

    /** `handleSendMessage`: blank input changes nothing; otherwise the
        user's message is appended with the next number, the input is
        cleared, the typing indicator is set and a reply numbered one
        further is scheduled. */
    method Send(lang: string)
      modifies this
      ensures IsBlank(old(input)) ==>
        messages == old(messages) && input == old(input) && typing == old(typing) && pending == old(pending)
      ensures !IsBlank(old(input)) ==>
        && messages == old(messages) + [Message(|old(messages)| + 1, old(input), User)]
        && input == ""
        && typing
        && pending == old(pending) + [PendingReply(|old(messages)| + 2, old(input), lang)]
      ensures old(Valid()) && !old(typing) ==> Valid()
    {
      if Trim(input) == [] {
        return;
      }
      var n := |messages|;
      pending := pending + [PendingReply(n + 2, input, lang)];
      messages := messages + [Message(n + 1, input, User)];
      input := "";
      typing := true;
    }

    /** The `setTimeout` callback of the oldest scheduled reply. */
    method DeliverReply()
      requires pending != []
      modifies this
      ensures messages == old(messages)
        + [Message(old(pending)[0].id, BotResponse(responses, old(pending)[0].text, old(pending)[0].lang), Bot)]
      ensures pending == old(pending)[1..]
      ensures !typing && input == old(input)
      ensures old(Valid()) ==> Valid()
    {
      var p := pending[0];
      messages := messages + [Message(p.id, BotResponse(responses, p.text, p.lang), Bot)];
      pending := pending[1..];
      typing := false;
    }

    /** `handleKeyPress`: Enter without Shift sends, which changes nothing
        when the input is blank; any other key does nothing. */
    method KeyPress(key: string, shift: bool, lang: string)
      modifies this
      ensures (key != "Enter" || shift) ==>
        messages == old(messages) && input == old(input) && typing == old(typing) && pending == old(pending)
      ensures key == "Enter" && !shift && IsBlank(old(input)) ==>
        messages == old(messages) && input == old(input) && typing == old(typing) && pending == old(pending)
      ensures key == "Enter" && !shift && !IsBlank(old(input)) ==>
        && messages == old(messages) + [Message(|old(messages)| + 1, old(input), User)]
        && input == "" && typing
        && pending == old(pending) + [PendingReply(|old(messages)| + 2, old(input), lang)]
      ensures old(Valid()) && !old(typing) ==> Valid()
    {
      if key == "Enter" && !shift {
        Send(lang);
      }
    }
  }
}
