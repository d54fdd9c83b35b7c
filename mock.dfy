/** The mock service: the same `chats` table and handlers, with no meta-prompt
    and a canned reply picked by keywords in the lower-cased user message. */
module MockService {
  import opened Chats
  import opened Text

  /** The body of a `POST /new_chat` response. */
  datatype MockChatResponse = MockChatResponse(chatId: ChatId, returnMessage: string)

  /** Which canned reply a message gets. */
  datatype Topic = Greeting | Wellbeing | Weather | Thanks | Other

  /** The keyword each topic is recognised by. */
  function Keyword(t: Topic): string
    requires t != Other
  {
    match t
    case Greeting => "hello"
    case Wellbeing => "how are you"
    case Weather => "weather"
    case Thanks => "thank"
  }

  /** The order in which `new_chat` tries the keywords. */
  const NewChatOrder: seq<Topic> := [Greeting, Wellbeing, Weather]

  /** The order in which `continue_chat` tries the keywords. */
  const ContinueOrder: seq<Topic> := [Greeting, Wellbeing, Weather, Thanks]

  /** Reference definition of a keyword dispatch: the first topic in `order`
      whose keyword occurs in `text`, or `Other` when none does. */
  function FirstMatching(text: string, order: seq<Topic>): (t: Topic)
    requires Other !in order
    ensures t == Other <==> forall j :: 0 <= j < |order| ==> !Contains(text, Keyword(order[j]))
    ensures t != Other ==>
      exists k :: 0 <= k < |order| && order[k] == t && Contains(text, Keyword(t))
        && forall j :: 0 <= j < k ==> !Contains(text, Keyword(order[j]))
    decreases |order|
  {
    if order == [] then Other
    else if Contains(text, Keyword(order[0])) then order[0]
    else FirstMatching(text, order[1..])
  }

  /** The `if`/`elif` chain of `new_chat` on `message.lower()`. */
  function NewChatTopic(message: string): (t: Topic)
    ensures t == FirstMatching(Lower(message), NewChatOrder)
  {
    var lowered := Lower(message);
    if Contains(lowered, "hello") then Greeting
    else if Contains(lowered, "how are you") then Wellbeing
    else if Contains(lowered, "weather") then Weather
    else Other
  }

  /** The `if`/`elif` chain of `continue_chat` on `message.lower()`. */
  function ContinueTopic(message: string): (t: Topic)
    ensures t == FirstMatching(Lower(message), ContinueOrder)
  {
    var lowered := Lower(message);
    if Contains(lowered, "hello") then Greeting
    else if Contains(lowered, "how are you") then Wellbeing
    else if Contains(lowered, "weather") then Weather
    else if Contains(lowered, "thank") then Thanks
    else Other
  }

  /** The canned replies of `new_chat`. */
  const NewChatGreetingReply: string := "Hello! I'm a mock AI assistant. How can I help you today?"
  const NewChatWellbeingReply: string := "I'm doing well, thank you for asking! I'm here to help with any questions you might have."
  const NewChatWeatherReply: string := "I'm a mock AI, so I can't check real weather data. But I hope you're having a great day!"

  /** The canned replies of `continue_chat`. */
  const ContinueGreetingReply: string := "Hello again! I'm still here to help you. What else would you like to know?"
  const ContinueWellbeingReply: string := "I'm still doing well! Thanks for asking again. How can I assist you further?"
  const ContinueWeatherReply: string := "I'm still a mock AI, so I can't check real weather data. But I hope you're having a great day!"
  const ContinueThanksReply: string := "You're very welcome! I'm happy to help. Is there anything else you'd like to know?"

  /** The fallback f-string: the user's message, as typed, between single quotes. */
  function Quoting(prefix: string, message: string, suffix: string): (r: string)
    ensures Contains(r, "'" + message + "'")
  {
    ContainsInfix(prefix, "'" + message + "'", suffix);
    prefix + ("'" + message + "'") + suffix
  }

  /** The reply `new_chat` stores and returns. */
  function NewChatReply(message: string): (r: string)
    ensures NewChatTopic(message) == Other ==> Contains(r, "'" + message + "'")
  {
    var t := NewChatTopic(message);
    if t == Greeting then NewChatGreetingReply
    else if t == Wellbeing then NewChatWellbeingReply
    else if t == Weather then NewChatWeatherReply
    else Quoting("I received your message: ", message, ". This is a mock response from the Swellyo LLM API.")
  }

  /** The reply `continue_chat` stores and returns. */
  function ContinueReply(message: string): (r: string)
    ensures ContinueTopic(message) == Other ==> Contains(r, "'" + message + "'")
  {
    match ContinueTopic(message)
    case Greeting => ContinueGreetingReply
    case Wellbeing => ContinueWellbeingReply
    case Weather => ContinueWeatherReply
    case Thanks => ContinueThanksReply
    case Other => Quoting("I received your follow-up message: ", message, ". This is a mock response continuing our conversation.")
  }

  /** Every check is made on the lowered message, so letter case never changes
      which reply a message gets. */
  lemma TopicIgnoresCase(a: string, b: string)
    requires SameUpToCase(a, b)
    ensures NewChatTopic(a) == NewChatTopic(b)
    ensures ContinueTopic(a) == ContinueTopic(b)
  {
    LowerIgnoresCase(a, b);
  }

  /** The first keyword wins: a message containing "hello" gets the greeting,
      whatever else it contains. */
  lemma GreetingWins(message: string)
    requires Contains(Lower(message), "hello")
    ensures NewChatReply(message) == NewChatGreetingReply
    ensures ContinueReply(message) == ContinueGreetingReply
  {
  }

  /** The exchanges `continue_chat` appends: pairs of a user turn and the
      canned reply to it. */
  ghost predicate ContinuedExchanges(t: seq<Turn>)
    decreases |t|
  {
    t == [] || (|t| >= 2 && t[0].role == User && t[1] == Turn(Assistant, ContinueReply(t[0].content)) && ContinuedExchanges(t[2..]))
  }

  /** A history the mock handlers can build: a user turn and the `new_chat`
      reply to it, then the exchanges of every later `continue_chat`. User and
      assistant turns alternate and there is no system turn. */
  ghost predicate MockSession(h: seq<Turn>)
  {
    && |h| >= 2
    && h[0].role == User
    && h[1] == Turn(Assistant, NewChatReply(h[0].content))
    && ContinuedExchanges(h[2..])
  }

  /** One more exchange keeps the tail well formed. */
  lemma {:induction false} AppendExchange(t: seq<Turn>, message: string)
    requires ContinuedExchanges(t)
    ensures ContinuedExchanges(t + [Turn(User, message), Turn(Assistant, ContinueReply(message))])
    decreases |t|
  {
    var pair := [Turn(User, message), Turn(Assistant, ContinueReply(message))];
    if t == [] {
      assert (t + pair)[2..] == [];
    } else {
      AppendExchange(t[2..], message);
      assert (t + pair)[2..] == t[2..] + pair;
    }
  }

  /** A continued mock session stays a mock session. */
  lemma ContinueKeepsMockSession(h: seq<Turn>, message: string)
    requires MockSession(h)
    ensures MockSession(h + [Turn(User, message), Turn(Assistant, ContinueReply(message))])
  {
    var pair := [Turn(User, message), Turn(Assistant, ContinueReply(message))];
    AppendKeepsPrefix(h, pair);
    AppendExchange(h[2..], message);
  }

  /** Appending leaves the first two turns and extends the tail. */
  lemma AppendKeepsPrefix(h: seq<Turn>, pair: seq<Turn>)
    requires |h| >= 2
    ensures (h + pair)[0] == h[0] && (h + pair)[1] == h[1] && (h + pair)[2..] == h[2..] + pair
  {
  }

  /** Every session in the table is one the mock handlers can build. */
  ghost predicate MockStore(chats: Store)
  {
    forall id {:trigger MockSession(chats[id])} :: id in chats ==> MockSession(chats[id])
  }

  /** `new_chat` keeps every entry of the table a mock session. */
  lemma NewChatKeepsMockStore(chats: Store, id: ChatId, message: string)
    requires MockStore(chats)
    ensures MockStore(chats[id := [Turn(User, message), Turn(Assistant, NewChatReply(message))]])
  {
  }

  /** `continue_chat` keeps every entry of the table a mock session. */
  lemma ContinueKeepsMockStore(chats: Store, id: ChatId, message: string)
    requires MockStore(chats) && id in chats
    ensures MockStore(chats[id := chats[id] + [Turn(User, message), Turn(Assistant, ContinueReply(message))]])
  {
    assert MockSession(chats[id]);
    ContinueKeepsMockSession(chats[id], message);
  }

  /** The mock's process-wide table and its handlers. */
  class MockChatService {
    var chats: Store

    ghost predicate Valid()
      reads this
    {
      MockStore(chats)
    }

    constructor ()
      ensures Valid() && chats == map[]
    {
      chats := map[];
    }

    /** `POST /new_chat`: stores `[user(message), assistant(reply)]` under `id`
        and returns the same reply. Nothing in it can raise. */
    method NewChat(id: ChatId, message: string) returns (r: MockChatResponse)
      requires Valid()
      modifies this
      ensures Valid()
      ensures chats == old(chats)[id := [Turn(User, message), Turn(Assistant, NewChatReply(message))]]
      ensures r.chatId == id && r.returnMessage == chats[id][1].content
    {
      chats := chats[id := [Turn(User, message)]];
      var reply := NewChatReply(message);
      chats := chats[id := chats[id] + [Turn(Assistant, reply)]];
      assert chats[id] == [Turn(User, message), Turn(Assistant, reply)];
      NewChatKeepsMockStore(old(chats), id, message);
      r := MockChatResponse(id, reply);
    }

    /** `POST /chats/{chat_id}/continue`. */
    method ContinueChat(id: ChatId, message: string) returns (r: Result<string, HttpError>)
      requires Valid()
      modifies this
      ensures Valid()
      ensures id !in old(chats) ==> r == Failure(NotFound) && chats == old(chats)
      ensures id in old(chats) ==>
        && chats == old(chats)[id := old(chats)[id] + [Turn(User, message), Turn(Assistant, ContinueReply(message))]]
        && r == Success(ContinueReply(message))
    {
      if id !in chats {
        return Failure(NotFound);
      }
      ghost var before := chats[id];
      ContinueKeepsMockStore(chats, id, message);
      chats := chats[id := chats[id] + [Turn(User, message)]];
      var reply := ContinueReply(message);
      chats := chats[id := chats[id] + [Turn(Assistant, reply)]];
      assert chats[id] == before + [Turn(User, message), Turn(Assistant, reply)];
      assert chats == old(chats)[id := before + [Turn(User, message), Turn(Assistant, reply)]];
      r := Success(reply);
    }

    /** `GET /chats/{chat_id}`: the stored turns verbatim, or 404. */
    function GetChatHistory(id: ChatId): (r: Result<ChatHistory, HttpError>)
      reads this
      ensures r.Success? <==> id in chats
      ensures r.Success? ==> r.value == ChatHistory(id, chats[id])
      ensures r.Failure? ==> r.error == NotFound
    {
      if id in chats then Success(ChatHistory(id, chats[id])) else Failure(NotFound)
    }
  }
}
