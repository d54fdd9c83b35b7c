# Swellyo chat backend — a Dafny model

This project models the conversation-session core of the Swellyo backend. That core is two FastAPI services that keep a process-wide table `chats` from chat id to the ordered list of `{role, content}` turns:

- `backend/main.py` is the real service. `new_chat` seeds a session with the meta-prompt (a system turn) and the user's message. It sends that history to the language model and appends the model's raw reply. `continue_chat` appends the user's message to a known session, sends the whole history, and appends the raw reply. Both turn the raw reply into the structured reply `{return_message, is_finished, data}`: they try to decode it as JSON and fall back to plain text. `get_chat_history` returns a session's turns verbatim.
- `backend/main_mock.py` is a stand-in with the same table and endpoints. It has no system turn. Its replies are canned: the first keyword (in a fixed order) found in the lower-cased message picks the reply. A message with no keyword gets a reply that quotes it.

Files:

- `chats.dfy` (module `Chats`): roles, turns, the table type, `Result`, and the HTTP errors (404 `Chat not found`; 500 `Error processing chat: …`).
- `text.dfy` (module `Text`): `str.lower()` and the substring test `needle in text`. The latter is a left-to-right scan, proved equivalent to "occurs at some index".
- `replies.dfy` (module `Replies`): decoded JSON values, the outcome of `json.loads`, and the parse-then-fallback normalisation of a reply.
- `service.dfy` (module `Service`): the real service. `NewChatEffect` and `ContinueChatEffect` are pure specifications of what each handler leaves in the table and returns. `ChatService` is a class with the `chats` map as a field. Its methods update it step by step, as the handlers do, and are proved equal to those specifications. Every stored session keeps an invariant: the meta-prompt is the first turn and the only system turn, and every assistant turn follows a user turn.
- `mock.dfy` (module `MockService`): the keyword dispatch, checked against a reference "first keyword in order" definition, the canned replies, and `MockChatService`. Its invariant is stronger: user and assistant turns alternate, and every assistant turn is the canned reply to the user turn before it.

The things the handlers cannot see are parameters:

- The language-model call is `model: seq<Turn> -> Completion`. Given the turns sent, it either completes with a text or raises with a message.
- `json.loads` is `parse: string -> Parsed`. It gives a decode error or a decoded value.
- The fresh UUID is the parameter `id`.
- The meta-prompt is an opaque string given to the `ChatService` constructor.

Three behaviours of the code are easy to miss, and the model follows the code in each:

- A reply that does not decode as JSON is not an error: it becomes a plain-text reply. But a reply that is valid JSON and not an object (a list, a string, a number…) makes `.get` raise. The handler then answers 500, after the raw reply has already been appended to the history (`NormalizeReply`, `NewChatEffect`, `ContinueChatEffect`).
- The rule that `data` is null while `is_finished` is false is only asked of the model, in the meta-prompt (backend/main.py:136). The service echoes whatever the model sends (`UnfinishedDataNotChecked`).
- Nothing stops messages after a reply with `is_finished` true. `ContinueChatEffect` never looks at earlier replies.

## Model

| member | source | states |
|---|---|---|
| `Text.Lower` | backend/main_mock.py:48 | `message.lower()` keeps the length and lowers each character on its own |
| `Text.LowerIgnoresCase` | backend/main_mock.py:48 | two messages lower to the same text exactly when they differ only in letter case |
| `Text.ContainsIffOccurs` | backend/main_mock.py:48 | the substring test `kw in text` holds exactly when `kw` occurs at some index of `text` (the empty string occurs everywhere) |
| `Replies.NormalizeReply` | backend/main.py:164-180 | text that is not JSON gives `return_message = raw`, `is_finished = false`, `data = null`. A JSON object gives each field from the object when present, or else the defaults raw / false / null. Any other JSON value fails, with the `AttributeError` text of `.get` on its type. It fails in exactly that case |
| `Replies.FinishedDataEchoed` | backend/main.py:166-172 | a reply with `is_finished` true and a `data` field has that data echoed unchanged |
| `Replies.UnfinishedDataNotChecked` | backend/main.py:166-172 | every JSON object with `is_finished` false and non-null `data` is accepted, and that `data` and `is_finished` are passed through unchanged, so the rule "data is null until finished" is not enforced |
| `Service.NewChatEffect` | backend/main.py:58-183 | the table gains the entry `id` and no other entry changes. The model is sent `[system(meta-prompt), user(message)]`. If it raises, that two-turn session stays and the answer is 500 with its message. Otherwise the session is exactly `[system, user, assistant(raw)]`, with the raw text and not the parsed object. The response carries `id` and the normalised reply, or a 500 when normalisation fails |
| `Service.ContinueChatEffect` | backend/main.py:202-246 | an unknown id gives a 404 (not wrapped as a 500) and an unchanged table. For a known id the model is sent the stored turns plus `user(message)`. If it raises, only the user turn is appended and the answer is 500. Otherwise exactly `user(message), assistant(raw)` are appended and the answer is the normalised reply. Other sessions and the key set never change |
| `Service.AppendKeepsSession` | backend/main.py:208-224 | appending a user turn, and then an assistant turn, keeps a history well formed: the meta-prompt is the first turn and the only system turn, and each assistant turn comes right after a user turn |
| `Service.NewChatKeepsStoreValid` | backend/main.py:140-161 | `new_chat` keeps every session in the table well formed, on every path |
| `Service.ContinueChatKeepsStoreValid` | backend/main.py:204-224 | `continue_chat` keeps every session in the table well formed, on every path |
| `Service.ContinueSendsSystemTurnOnce` | backend/main.py:208-213 | a continued chat sends the meta-prompt once, as the first turn, and the new user message last |
| `Service.ChatService.constructor` | backend/main.py:28 | the table starts empty |
| `Service.ChatService.NewChat` | backend/main.py:58-183 | the in-place updates (assignment, model call, append, normalise) leave exactly the table and response of `NewChatEffect`. After a success, the history of the new id holds three turns |
| `Service.ChatService.ContinueChat` | backend/main.py:202-246 | the in-place updates (404 check, append, model call, append, normalise) leave exactly the table and response of `ContinueChatEffect` |
| `Service.ChatService.GetChatHistory` | backend/main.py:259-262 | 404 exactly for an unknown id; otherwise the id with its stored turns verbatim; reads the table without changing it |
| `MockService.FirstMatching` | backend/main_mock.py:94-103 | reference dispatch: `Other` exactly when no keyword of the order occurs. Otherwise a topic whose keyword occurs, and no topic earlier in the order has its keyword occurring |
| `MockService.NewChatTopic` | backend/main_mock.py:48-54 | the `new_chat` chain picks the first of "hello", "how are you", "weather" found in the lower-cased message |
| `MockService.ContinueTopic` | backend/main_mock.py:94-102 | the `continue_chat` chain picks the first of "hello", "how are you", "weather", "thank" found in the lower-cased message |
| `MockService.Quoting` | backend/main_mock.py:55 | the fallback text contains the message, as typed, between single quotes |
| `MockService.NewChatReply` | backend/main_mock.py:48-55 | a message with none of the three keywords gets a reply that quotes it verbatim (not lower-cased) |
| `MockService.ContinueReply` | backend/main_mock.py:94-103 | a message with none of the four keywords gets a reply that quotes it verbatim (not lower-cased) |
| `MockService.TopicIgnoresCase` | backend/main_mock.py:48-52 | messages that differ only in letter case get the same topic in both handlers |
| `MockService.GreetingWins` | backend/main_mock.py:48-49 | any message whose lower-cased text contains "hello" gets the greeting in both handlers, whatever other keywords it contains |
| `MockService.AppendExchange` | backend/main_mock.py:91-106 | appending `user(message), assistant(ContinueReply(message))` to a run of such exchanges keeps it one |
| `MockService.ContinueKeepsMockSession` | backend/main_mock.py:91-106 | a continued mock session still alternates user and assistant turns, and each assistant turn is the canned reply to the user turn before it |
| `MockService.NewChatKeepsMockStore` | backend/main_mock.py:45-58 | storing `[user(message), assistant(NewChatReply(message))]` under any id keeps every session in the table a mock session |
| `MockService.ContinueKeepsMockStore` | backend/main_mock.py:87-106 | continuing a known session keeps every session in the table a mock session |
| `MockService.MockChatService.constructor` | backend/main_mock.py:14 | the table starts empty |
| `MockService.MockChatService.NewChat` | backend/main_mock.py:40-63 | the table maps `id` to exactly `[user(message), assistant(reply)]` with no system turn, and no other entry changes. The response carries `id`, and its `return_message` is the stored assistant content |
| `MockService.MockChatService.ContinueChat` | backend/main_mock.py:85-108 | an unknown id gives a 404 and an unchanged table. A known id gets exactly `user(message), assistant(reply)` appended, and the response carries that reply |
| `MockService.MockChatService.GetChatHistory` | backend/main_mock.py:126-129 | 404 exactly for an unknown id; otherwise the id with its stored turns verbatim |

## Left out

- Routing, the pydantic request and response classes, CORS, the `/health` endpoints and the uvicorn entry points are transport glue.
- The OpenAI client is replaced by the `model` parameter. The model names, temperature, token limit, `store` flag and JSON response format do not change what the handlers do with the answer. A completion whose content is `None` is not modelled: `Completion` always carries a string.
- `json.loads` is replaced by the `parse` parameter: the JSON grammar, the handling of duplicate keys and JSON numbers with a fraction are not modelled. `JNumber` holds an integer, so `TypeName` never yields `float`.
- Text.Lower: lowers only the ASCII letters A–Z, where Python's `str.lower` also applies Unicode case mappings, some of which change the length of the string.
- `uuid4` is replaced by the `id` parameter. No freshness is assumed. A colliding id overwrites the old session, as the dictionary assignment does.
- The meta-prompt text is an opaque string. Only its position as the first, system turn matters.
- `load_dotenv`, `os.getenv` and the `print` logging do nothing the model can observe.
- Concurrency needs no model. Every handler is `async def` with no `await` in its body (backend/main.py:48, 191, 249; backend/main_mock.py:30, 74, 116), and the OpenAI client is the synchronous `OpenAI` (backend/main.py:25, 146, 211). So each handler body runs to completion on the event loop before another starts, and separate worker processes each have their own `chats`. The model's one-call-at-a-time reading is therefore exact for this code, not a simplification.
- The mock `new_chat` and `continue_chat` both wrap their bodies in `except Exception` → 500 (backend/main_mock.py:65-66, 112-113). Nothing in either body can raise, so `MockChatService.NewChat` and `MockChatService.ContinueChat` have no 500 path.
- `backend/test_api.py` and `backend/test_server.py` are scripts against a running server.
