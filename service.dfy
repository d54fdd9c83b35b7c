/** The LLM-backed service: the `chats` table and the handlers `new_chat`,
    `continue_chat` and `get_chat_history`. The model call is a parameter
    `model` (given the turns sent, it completes or raises), `json.loads` is a
    parameter `parse`, and the fresh UUID is the parameter `id`. */
module Service {
  import opened Chats
  import opened Replies

  /** What the completion call does: return the assistant's text, or raise. */
  datatype Completion = Completed(content: string) | Raised(message: string)

  type Model = seq<Turn> -> Completion
  type JsonParser = string -> Parsed

  /** The body of a successful `POST /new_chat`. */
  datatype NewChatResponse = NewChatResponse(chatId: ChatId, reply: ChatReply)

  /** What a handler leaves behind: the table afterwards, and the response or error. */
  datatype Effect<T> = Effect(chats: Store, response: Result<T, HttpError>)

  /** The two turns a new chat starts with, which are also what the model is sent. */
  function Seed(metaPrompt: string, message: string): seq<Turn>
  {
    [Turn(System, metaPrompt), Turn(User, message)]
  }

  /** Normalisation inside the handler: its failure becomes a 500. */
  function Answer(raw: string, parse: JsonParser): Result<ChatReply, HttpError>
  {
    match NormalizeReply(raw, parse(raw))
    case Success(reply) => Success(reply)
    case Failure(cause) => Failure(Internal(cause))
  }

  /** `new_chat`: the table gains (or, on a UUID collision, overwrites) the entry
      `id`. It holds the seed, plus the raw reply once the model has answered,
      whatever normalisation then does. No other entry changes. */
  function NewChatEffect(chats: Store, metaPrompt: string, id: ChatId, message: string, model: Model, parse: JsonParser)
    : (e: Effect<NewChatResponse>)
    ensures e.chats.Keys == chats.Keys + {id}
    ensures forall k :: k in chats && k != id ==> e.chats[k] == chats[k]
    ensures model(Seed(metaPrompt, message)).Raised? ==>
      && e.chats[id] == Seed(metaPrompt, message)
      && e.response == Failure(Internal(model(Seed(metaPrompt, message)).message))
    ensures model(Seed(metaPrompt, message)).Completed? ==>
      var raw := model(Seed(metaPrompt, message)).content;
      && e.chats[id] == [Turn(System, metaPrompt), Turn(User, message), Turn(Assistant, raw)]
      && (e.response.Success? <==> Answer(raw, parse).Success?)
      && (e.response.Success? ==> e.response.value == NewChatResponse(id, Answer(raw, parse).value))
      && (e.response.Failure? ==> e.response.error == Answer(raw, parse).error)
  {
    var seed := Seed(metaPrompt, message);
    match model(seed)
    case Raised(cause) => Effect(chats[id := seed], Failure(Internal(cause)))
    case Completed(raw) =>
      var after := chats[id := seed + [Turn(Assistant, raw)]];
      match Answer(raw, parse)
      case Success(reply) => Effect(after, Success(NewChatResponse(id, reply)))
      case Failure(err) => Effect(after, Failure(err))
  }

  /** `continue_chat`: an unknown id is a 404 that touches nothing. Otherwise the
      user turn is appended and the whole history, with it, is sent to the model;
      its raw answer is appended after it. No other entry changes. */
  function ContinueChatEffect(chats: Store, id: ChatId, message: string, model: Model, parse: JsonParser)
    : (e: Effect<ChatReply>)
    ensures id !in chats ==> e == Effect(chats, Failure(NotFound))
    ensures e.chats.Keys == chats.Keys
    ensures forall k :: k in chats && k != id ==> e.chats[k] == chats[k]
    ensures id in chats ==>
      var sent := chats[id] + [Turn(User, message)];
      match model(sent)
      case Raised(cause) => e.chats[id] == sent && e.response == Failure(Internal(cause))
      case Completed(raw) => e.chats[id] == chats[id] + [Turn(User, message), Turn(Assistant, raw)] && e.response == Answer(raw, parse)
  {
    if id !in chats then Effect(chats, Failure(NotFound))
    else
      var sent := chats[id] + [Turn(User, message)];
      match model(sent)
      case Raised(cause) => Effect(chats[id := sent], Failure(Internal(cause)))
      case Completed(raw) => Effect(chats[id := sent + [Turn(Assistant, raw)]], Answer(raw, parse))
  }

  /** A history the handlers can build: the meta-prompt first and nowhere else,
      a user turn second, and every assistant turn right after a user turn. */
  ghost predicate ValidSession(h: seq<Turn>, metaPrompt: string)
  {
    && |h| >= 2
    && h[0] == Turn(System, metaPrompt)
    && h[1].role == User
    && (forall i :: 1 <= i < |h| ==> h[i].role != System)
    && (forall i :: 1 <= i < |h| && h[i].role == Assistant ==> h[i - 1].role == User)
  }

  ghost predicate ValidStore(chats: Store, metaPrompt: string)
  {
    forall id {:trigger ValidSession(chats[id], metaPrompt)} :: id in chats ==> ValidSession(chats[id], metaPrompt)
  }

  /** A user turn, then possibly the model's answer, keep a history valid. */
  lemma AppendKeepsSession(h: seq<Turn>, metaPrompt: string, message: string, raw: string)
    requires ValidSession(h, metaPrompt)
    ensures ValidSession(h + [Turn(User, message)], metaPrompt)
    ensures ValidSession(h + [Turn(User, message), Turn(Assistant, raw)], metaPrompt)
  {
  }

  lemma NewChatKeepsStoreValid(chats: Store, metaPrompt: string, id: ChatId, message: string, model: Model, parse: JsonParser)
    requires ValidStore(chats, metaPrompt)
    ensures ValidStore(NewChatEffect(chats, metaPrompt, id, message, model, parse).chats, metaPrompt)
  {
  }

  lemma ContinueChatKeepsStoreValid(chats: Store, metaPrompt: string, id: ChatId, message: string, model: Model, parse: JsonParser)
    requires ValidStore(chats, metaPrompt)
    ensures ValidStore(ContinueChatEffect(chats, id, message, model, parse).chats, metaPrompt)
  {
    if id in chats {
      var raw := if model(chats[id] + [Turn(User, message)]).Completed? then model(chats[id] + [Turn(User, message)]).content else "";
      AppendKeepsSession(chats[id], metaPrompt, message, raw);
    }
  }

  /** A continued chat is sent the meta-prompt once, as its first turn, and the
      new user message last. */
  lemma ContinueSendsSystemTurnOnce(chats: Store, metaPrompt: string, id: ChatId, message: string)
    requires ValidStore(chats, metaPrompt) && id in chats
    ensures var sent := chats[id] + [Turn(User, message)];
      && sent[0] == Turn(System, metaPrompt)
      && (forall i :: 1 <= i < |sent| ==> sent[i].role != System)
      && sent[|sent| - 1] == Turn(User, message)
  {
    AppendKeepsSession(chats[id], metaPrompt, message, "");
  }

  /** The process-wide table with the handlers that mutate it in place. */
  class ChatService {
    const metaPrompt: string
    var chats: Store

    ghost predicate Valid()
      reads this
    {
      ValidStore(chats, metaPrompt)
    }

    constructor (metaPrompt: string)
      ensures Valid() && this.metaPrompt == metaPrompt && chats == map[]
    {
      this.metaPrompt := metaPrompt;
      chats := map[];
    }

    /** `POST /new_chat`. */
    method NewChat(id: ChatId, message: string, model: Model, parse: JsonParser)
      returns (r: Result<NewChatResponse, HttpError>)
      requires Valid()
      modifies this
      ensures Valid()
      ensures Effect(chats, r) == NewChatEffect(old(chats), metaPrompt, id, message, model, parse)
      ensures r.Success? ==> GetChatHistory(id).Success? && |GetChatHistory(id).value.messages| == 3
    {
      NewChatKeepsStoreValid(chats, metaPrompt, id, message, model, parse);
      chats := chats[id := [Turn(System, metaPrompt), Turn(User, message)]];
      var completion := model(chats[id]);
      if completion.Raised? {
        r := Failure(Internal(completion.message));
        return;
      }
      var raw := completion.content;
      chats := chats[id := chats[id] + [Turn(Assistant, raw)]];
      var normalized := NormalizeReply(raw, parse(raw));
      if normalized.Failure? {
        r := Failure(Internal(normalized.error));
      } else {
        r := Success(NewChatResponse(id, normalized.value));
      }
    }

    /** `POST /chats/{chat_id}/continue`. */
    method ContinueChat(id: ChatId, message: string, model: Model, parse: JsonParser)
      returns (r: Result<ChatReply, HttpError>)
      requires Valid()
      modifies this
      ensures Valid()
      ensures Effect(chats, r) == ContinueChatEffect(old(chats), id, message, model, parse)
    {
      ContinueChatKeepsStoreValid(chats, metaPrompt, id, message, model, parse);
      if id !in chats {
        return Failure(NotFound);
      }
      chats := chats[id := chats[id] + [Turn(User, message)]];
      var completion := model(chats[id]);
      if completion.Raised? {
        r := Failure(Internal(completion.message));
        return;
      }
      var raw := completion.content;
      chats := chats[id := chats[id] + [Turn(Assistant, raw)]];
      var normalized := NormalizeReply(raw, parse(raw));
      if normalized.Failure? {
        r := Failure(Internal(normalized.error));
      } else {
        r := Success(normalized.value);
      }
    }

    /** `GET /chats/{chat_id}`: the stored turns verbatim, or 404. */
    function GetChatHistory(id: ChatId): (r: Result<ChatHistory, HttpError>)
      reads this
      ensures r.Success? <==> id in chats
      ensures r.Success? ==> r.value == ChatHistory(id, chats[id])
      ensures r.Failure? ==> r.error == NotFound
    {
      if id in chats then Success(ChatHistory(id, chats[id])) else Failure(NotFound)
    }
  }
}
