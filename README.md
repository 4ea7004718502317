# Chica Uni agent bridge: access control and bootstrap, in Dafny

`server.py` is an HTTP bridge between an AI agent and one Telegram account.
It reads only "study" chats and writes only to the account's private chat
with itself. This project models the part of it that carries policy:

- **the chat classifier** `is_study_chat`. A title is a study title when its
  lower-cased form contains one of thirteen fixed keywords as a substring
  (module `Classifier`);
- **the bootstrap** `startup` / `shutdown`. Startup is guarded by
  `CLIENT_STARTED`. It connects, then tries `get_me` up to ten times. When the
  account is known it creates the private self-chat. It then lists the chats,
  fetches each one and skips the ones whose fetch raises. Last, it replaces
  `ALL_CHATS` and `STUDY_CHATS` whole (modules `Directory`, `Bootstrap`);
- **the gateway**: the four endpoints `/me`, `/chats`, `/messages` and
  `/send`. Each checks the API key by exact match. Each then checks readiness.
  Reads go through the study allow-list, the clamped history limit and the
  text filter. Sends go through the strict body check and the
  recreate-once / retry-once recovery of the self-chat handle (module
  `Gateway`).

The TDLib client is an oracle (module `Adapter`). A `Script` fixes in
advance, per kind of call, whether each call returns a value or raises. A
`TdClient` object consumes those replies and logs every call, so retry
counts, skipped chats and call order can be stated about the log. An
exhausted reply queue raises.

Module `Domain` gathers the globals into a `State` value. `Bootstrap` and
`Gateway` define each handler as a function from the globals and the script
to the answer, the new globals, the remaining script and the calls made. The
lemmas state the source's promises about those functions. Module `Server`
holds the same handlers written imperatively. Class `App` keeps the globals
in fields, and each method updates them in place and is proved to equal its
function: the `get_me` retry loop, the chat enumeration loop, the message
text loop, and the lazy creation and re-creation of the handle. Module
`Lifecycle` proves an invariant of every reachable state. The study list is
the study-titled part of the directory, and a handle is held only once the
account id is known. So `create_private_chat` is never called without a user
id.

Behaviour of `server.py` that is easy to misread, and which the model reproduces:

- `/me` calls `get_me` live. A raise there is not caught, so the answer is
  500 (FastAPI's answer to an unhandled exception).
- When all ten `get_me` attempts fail, `SELF_USER_ID` keeps its previous
  value. It is not reset: once a startup has obtained it, a later startup
  whose attempts all fail keeps it; it stays unset until some startup obtains it.
- The lazy `create_private_chat` in `/send` (when the handle is unset) is not
  inside a `try`. If it raises, the answer is 500 and the handle stays unset.
- `/messages` does not cut the history to the limit itself. It asks the
  client for `min(limit, 100)` messages. "At most `min(limit, 100)` texts"
  therefore holds only when the client honours that limit, and
  `ReadClampsAndFilters` states it under that condition.
- A truthy `text` that is not a string (a non-zero integer or float, or `true`) passes the
  emptiness check. `len` then raises, and the answer is 500, not 400.
- `CLIENT_STARTED` becomes true right after connecting, before the identity
  and the chats are loaded. Handlers run one at a time here, so no request
  sees the half-built state.

## Model

| member | source | states |
|---|---|---|
| `Classifier.LowerChar` | server.py:67 | one character of `title.lower()` (no contract of its own; weaker than Python, see Left out) |
| `Classifier.Lower` | server.py:67 | `title.lower()`, character by character (no contract of its own; `LowerIdempotent` and `LowerAppend` state its properties) |
| `Classifier.Contains` | server.py:68 | `k in t` (no contract of its own; `ContainsIff` states what it decides) |
| `Classifier.AnyKeyword` | server.py:68 | `any(k in t for k in STUDY_KEYWORDS)` (no contract of its own; `AnyKeywordIff` states what it decides) |
| `Classifier.IsStudyChat` | server.py:66-68 | `is_study_chat`: lower-case the title, then test each keyword for containment (no contract of its own; `IsStudyChatIff` states what it decides) |
| `Classifier.IsStudyChatIff` | server.py:49-68 | a title is a study title exactly when some keyword of the fixed list occurs as a substring of the lower-cased title |
| `Classifier.ContainsIff` | server.py:68 | the substring test `k in t` holds exactly when `k` occurs at some index of `t` |
| `Classifier.AnyKeywordIff` | server.py:68 | `any(k in t for k in keywords)` holds exactly when some keyword is contained |
| `Classifier.IsStudyChatIgnoresCase` | server.py:66-68 | classifying the lower-cased title gives the same answer as classifying the title |
| `Classifier.LowerIdempotent` | server.py:67 | lower-casing twice is lower-casing once |
| `Classifier.LowerAppend` | server.py:67 | lower-casing a concatenation lower-cases each part |
| `Classifier.StudyTitleInContext` | server.py:66-68 | matching is containment, not word matching: a study title stays one with any text around it |
| `Classifier.KeywordsAreLowerCase` | server.py:49-63 | every keyword, the accented ones included, is already lower case |
| `Classifier.WordPartExample` | server.py:49-68 | "Dudas pecuniario" is a study title: "pec" inside a longer word matches |
| `Classifier.CaseExample` | server.py:66-68 | "PSICOLOGÍA 2024" is a study title: capitals, accented ones included, are lowered before matching |
| `Classifier.NonStudyExample` | server.py:49-68 | "Familia" contains no keyword and is not a study title |
| `Gateway.Authorized` | server.py:71-73 | `check_api_key`: the header passes only when present and equal to the configured key (no contract of its own; `KeyCheckedFirst` states its effect on every endpoint) |
| `Adapter.TdClient.Connect` | server.py:100 | connecting consumes one reply and logs one call |
| `Adapter.TdClient.Close` | server.py:163 | closing consumes one reply and logs one call |
| `Adapter.TdClient.GetMe` | server.py:107 | `get_me` answers the next scripted reply and logs one call |
| `Adapter.TdClient.CreatePrivateChat` | server.py:122 | `create_private_chat` answers the next scripted chat id or raises, and logs the user id it was given |
| `Adapter.TdClient.GetChats` | server.py:130 | `get_chats` answers the next scripted id list or raises, and logs the limit |
| `Adapter.TdClient.GetChat` | server.py:136 | `get_chat` answers the next scripted chat or raises, and logs the id asked for |
| `Adapter.TdClient.OpenChat` | server.py:228 | `open_chat` succeeds or raises and logs the chat id |
| `Adapter.TdClient.GetChatHistory` | server.py:232-238 | `get_chat_history` answers the next scripted history or raises, and logs chat id and limit |
| `Adapter.TdClient.SendMessage` | server.py:324-327 | `send_message` succeeds or raises and logs the destination and text |
| `Adapter.GetChatCalls` | server.py:134-136 | one `get_chat` call per listed id, in listing order |
| `Directory.ChatTitle` | server.py:137 | a non-empty title wins; a missing or empty title with a first name present gives the first name; both missing gives "Sin título"; the result is always one of the three; it is empty only through an empty first name |
| `Directory.Entry` | server.py:137-138 | the `chat_dict` of a fetched chat: its id and its `ChatTitle` (no contract of its own) |
| `Directory.AllChats` | server.py:134-139 | `ALL_CHATS` as the loop builds it from the fetch replies: never more entries than chats fetched |
| `Directory.StudyFilter` | server.py:141-142 | `STUDY_CHATS` as the loop builds it: never more entries than the directory |
| `Directory.EnumerationStep` | server.py:135-142 | one loop step: a returned chat's entry is appended to the directory, and to the study list exactly when its title is a study title; a raised fetch changes neither |
| `Directory.AllChatsAppend` | server.py:134-139 | the directory keeps enumeration order |
| `Directory.AllChatsMembership` | server.py:134-144 | an entry is in `ALL_CHATS` exactly when some `get_chat` call returned that chat |
| `Directory.StudyMembership` | server.py:139-142 | an entry is in `STUDY_CHATS` exactly when it is in `ALL_CHATS` and its title is a study title |
| `Directory.StudySubsequence` | server.py:139-142 | the study list is a subsequence of the directory: each entry at an increasing index of it |
| `Directory.FailedChatAbsent` | server.py:135-144 | a chat whose `get_chat` raised is in neither list, when the client answers each fetch with the chat asked for and ids are listed once |
| `Directory.SkippedChatExample` | server.py:134-144 | ids 1, 2, 3 with the fetch of 2 raising give a directory of chats 1 and 3 only |
| `Directory.SkippedChatStudyExample` | server.py:141-142 | of those, only the keyword-titled chat is a study chat |
| `Bootstrap.FetchMe` | server.py:104-111 | the retry loop makes at most ten attempts and stops at the first that returns; every earlier attempt raised, and when none returns all ten were made |
| `Bootstrap.Identify` | server.py:103-126 | steps 1 and 2 of `startup` change only `SELF_USER_ID` and `SELF_PRIVATE_CHAT_ID`, set a handle only with a known user id, and make 1 to 11 calls |
| `Bootstrap.Preload` | server.py:128-154 | step 3 changes only the two lists; it either keeps the state or leaves the study list equal to the study part of the new directory; its first call is `get_chats(limit=200)` |
| `Bootstrap.Load` | server.py:103-154 | steps 1 to 3 leave `CLIENT_STARTED` as it was |
| `Bootstrap.Startup` | server.py:86-154 | `startup` answers true exactly when `CLIENT_STARTED` is set afterwards, and a startup that is not yet started begins with the connect call |
| `Bootstrap.Shutdown` | server.py:158-167 | `shutdown` clears `CLIENT_STARTED`, changes nothing else and makes at most one call |
| `Bootstrap.StartupIdempotent` | server.py:96-101 | a started process is left untouched with no call; a completed startup run again is a no-op; connecting sets `CLIENT_STARTED`; a failed connect changes nothing |
| `Bootstrap.GetMeAttempts` | server.py:104-111 | startup calls `get_me` between one and ten times, and every attempt before the last raised; the last returned unless it was the tenth |
| `Bootstrap.IdentityUnavailable` | server.py:113-114 | when ten attempts raise, the user id and handle keep their values, `create_private_chat` is never called, and the chats are still listed |
| `Bootstrap.IdentityFound` | server.py:115-126 | when an attempt returns the account, `SELF_USER_ID` is its id and `create_private_chat(id)` is called once; a raise leaves the handle unchanged; the chats are listed either way |
| `Bootstrap.DirectoryRebuilt` | server.py:128-154 | both lists are rebuilt from the fetch replies, one `get_chat` per listed id in order; a raising listing leaves both lists as they were |
| `Bootstrap.StartupKeepsDirectoryConsistent` | server.py:128-147 | after startup the study list is still the study-titled part of the directory |
| `Bootstrap.ShutdownIdempotent` | server.py:157-167 | shutdown clears `CLIENT_STARTED`, closes the client only if started, and a second shutdown does nothing |
| `Bootstrap.RestartAfterShutdown` | server.py:96-101 | after shutdown, startup connects again |
| `Gateway.KeyCheckedFirst` | server.py:71-73 | every endpoint (lines 178, 200, 217, 268) answers 401 to a missing or wrong key, before anything else, with no call and no state change |
| `Gateway.GetMeInfo` | server.py:174-192 | `/me` changes no global; with the key but before startup it answers 503 with no call; once started, a raising `get_me` answers 500 and a returning one answers the account's id, names, masked phone and the current handle; an answer other than an error needs the key and a started client and makes exactly one `get_me` call |
| `Gateway.PhoneEndsWith` | server.py:190 | no number gives null; otherwise the last min(4, length) characters of the number |
| `Gateway.MeInfoMasksPhone` | server.py:173-192 | `/me` changes no global; with the key on a started client it succeeds exactly when `get_me` returns; it reports the current handle, and shows at most the last four characters of the phone number |
| `Gateway.ListStudyChats` | server.py:196-205 | `/chats` changes nothing and calls nothing; it answers 200 exactly when the key matches and the client is started, and 503 with the key before startup |
| `Gateway.ChatListIsSnapshot` | server.py:195-205 | `/chats` answers with the study list of the last startup, exactly when authorised and started, with no call |
| `Gateway.GetMessages` | server.py:209-255 | `/messages` changes no global; with the key but before startup it answers 503 with no call, whatever the chat (the readiness check precedes the allow-list); it answers 200 exactly when the key matches, the client is started and the chat is a study chat; every 200 answer echoes the requested chat id; a full page's count is its number of texts |
| `Gateway.Min` | server.py:236 | `min(limit, 100)` is at most both arguments and equal to one of them |
| `Gateway.TextBodies` | server.py:240-244 | the texts kept from a history are never more than its messages |
| `Gateway.Allowed` | server.py:222-223 | `chat_id in {c["id"] for c in STUDY_CHATS}`: some study entry carries the id (no contract of its own; `ReadAllowList` states its effect) |
| `Gateway.ReadAllowList` | server.py:217-224 | an authorised read of a started server is refused with 403 exactly when the chat id labels no study entry; a refused read calls nothing; reads never answer 500 |
| `Gateway.ReadRefusesNonStudyChat` | server.py:222-224 | a chat in `ALL_CHATS` that is not a study chat is refused with 403 |
| `Gateway.TextBodiesAppend` | server.py:240-244 | the kept texts follow history order |
| `Gateway.TextBodiesSpec` | server.py:240-244 | no more texts than messages, and a text is kept exactly when some message carries it as text |
| `Gateway.ReadClampsAndFilters` | server.py:226-255 | an allowed read opens the chat and asks for `min(limit, 100)` messages; the page carries the requested chat id and the texts of the text-bearing messages, and its count equals their number; a raising fetch answers an empty list; a client honouring the limit yields at most `min(limit, 100)` texts |
| `Gateway.ReadCountExample` | server.py:240-249 | five messages, two without text, give three texts |
| `Gateway.Truthy` | server.py:277 | Python truthiness of the `text` value behind `not text`: null, false, zero (integer or float) and the empty string are falsy (no contract of its own; `CheckSendBody` states its effect) |
| `Gateway.CheckSendBody` | server.py:270-281 | an accepted body is exactly `{"text": t}` with 1 to 1500 characters; every refusal is 400, except a truthy non-string text (with `text` the only key), which is always 500 |
| `Gateway.CheckSendBodyAccepts` | server.py:270-281 | `{"text": t}` is accepted exactly when t has 1 to 1500 characters |
| `Gateway.SendBodyExamples` | server.py:270-281 | an extra key and an empty text are 400; 1500 characters pass, 1501 do not |
| `Gateway.SendCheckOrder` | server.py:268-284 | checks run 401, then 400 for another key, then 400 for missing or empty text, then 400 for over 1500, then 503; each refusal has no call and no state change |
| `Gateway.BotConfigured` | server.py:287 | `TELEGRAM_BOT_TOKEN and TELEGRAM_TARGET_CHAT_ID`: both settings non-empty (no contract of its own; `BotRelayTouchesNothing` states its effect) |
| `Gateway.Deliver` | server.py:322-345 | the TDLib delivery changes only the handle, leaves one set, makes one to three calls and first sends the text to the held handle; when that send returns, it answers `sent` via TDLib with the held handle after that one call and changes nothing |
| `Gateway.DeliverBounded` | server.py:323-338 | one delivery sends at most twice and re-creates at most once; each send carries the text to the handle or its re-creation; only the handle changes |
| `Gateway.SendBounded` | server.py:302-345 | a send makes at most two `send_message` and two `create_private_chat` calls; each message goes with the body's text to the handle or to a re-created handle, never a caller-given chat; only the handle changes; success reports the handle the last message went to |
| `Gateway.SendToMaria` | server.py:259-345 | `/send` succeeds only with the right key, an accepted body and a started client; it changes only the handle; it calls TDLib only when no bot relay is configured |
| `Gateway.SendWithoutHandle` | server.py:305-312 | no handle and no user id: 500 before any call; no handle with a user id: the first call creates the handle, a raise answers 500, and a returned id receives the first send |
| `Gateway.SendRecovery` | server.py:323-338 | a failed send leads to exactly one re-creation and one resend; either raising answers 500; a re-created handle is kept even when the resend raises |
| `Gateway.SendSucceeds` | server.py:305-345 | a returning send answers `sent` via TDLib: with a held handle after that one call and no change; with no handle, after a returning create and one send, with the new handle kept |
| `Gateway.BotRelayTouchesNothing` | server.py:286-300 | with a bot token and target set, the send makes no TDLib call and changes no global |
| `Gateway.DeliverIgnoresText` | server.py:322-338 | two texts give the same delivery answer, new state and calls except for the text carried |
| `Gateway.SendDestinationIgnoresBody` | server.py:258-345 | two accepted bodies give the same answer, new state and calls except for the text: the destination never depends on caller input |
| `Lifecycle.InitialInvariant` | server.py:38-46 | the initial globals satisfy the invariant |
| `Lifecycle.StartupKeepsInvariant` | server.py:86-154 | startup keeps the invariant |
| `Lifecycle.ShutdownKeepsInvariant` | server.py:157-167 | shutdown keeps the invariant |
| `Lifecycle.ReadsKeepState` | server.py:173-255 | `/me`, `/chats` and `/messages` leave every global unchanged |
| `Lifecycle.DeliverKeepsInvariant` | server.py:322-338 | the delivery keeps the invariant, and a re-creation gets the stored, known user id |
| `Lifecycle.SendKeepsInvariant` | server.py:302-338 | `/send` keeps the invariant, and every `create_private_chat` it makes gets the stored, known user id |
| `Server.CollectTexts` | server.py:240-244 | the loop over the history collects exactly the texts of the text-bearing messages, in order |
| `Server.App.constructor` | server.py:38-46 | the globals start not started, with no identity, no handle and empty lists |
| `Server.App.FetchIdentity` | server.py:104-111 | the `get_me` loop finds what `Bootstrap.FetchMe` finds after as many attempts, and logs one call per attempt |
| `Server.App.Identify` | server.py:103-126 | identity and self-chat steps update the globals and the log as `Bootstrap.Identify` says |
| `Server.App.LoadChats` | server.py:129-147 | the enumeration loop builds the directory and study list from the fetch replies, one `get_chat` per id |
| `Server.App.Preload` | server.py:128-154 | the chat step replaces both lists whole, or leaves them when the listing raises |
| `Server.App.Load` | server.py:103-154 | once connected, the identity step then the chat step run in that order, as `Bootstrap.Load` says |
| `Server.App.Boot` | server.py:101-154 | once connected, `CLIENT_STARTED` is set and the load runs, as `Bootstrap.Load` says from the marked state |
| `Server.App.Startup` | server.py:85-154 | `startup` updates the globals, replies and log as `Bootstrap.Startup` says |
| `Server.App.Shutdown` | server.py:157-167 | `shutdown` updates `CLIENT_STARTED` and the log as `Bootstrap.Shutdown` says |
| `Server.App.GetMeInfo` | server.py:173-192 | `/me` answers as `Gateway.GetMeInfo` says |
| `Server.App.ListStudyChats` | server.py:195-205 | `/chats` answers as `Gateway.ListStudyChats` says |
| `Server.App.GetMessages` | server.py:208-255 | `/messages` answers and calls the client as `Gateway.GetMessages` says |
| `Server.App.Deliver` | server.py:322-338 | the send and the single re-create-and-resend update the handle in place and call the client as `Gateway.Deliver` says |
| `Server.App.SendToMaria` | server.py:258-345 | `/send` answers, updates the handle in place and calls the client as `Gateway.SendToMaria` says |

## Left out

- FastAPI routing, header extraction and query parsing (the default `limit` of 50, the 422 answers to a malformed query or to a body that is not a JSON object): these are framework plumbing. Handlers take the header value, the query values and the body map as parameters.
- uvicorn and the dotenv and environment loading: configuration is a `Config` value.
- The TDLib client itself: each call is a scripted reply that returns a value or raises. The text of an exception (the `error` string of a degraded `/messages` answer) is not modelled.
- The bot relay's HTTP post: its outcome, including a non-numeric `TELEGRAM_TARGET_CHAT_ID`, is the boolean `relayOk`.
- `asyncio.sleep` between `get_me` attempts, timing, and concurrent requests: each handler runs alone and atomically.
- `print` and traceback logging.
- `Classifier.LowerChar`: lower-cases ASCII and Latin-1 capitals only, not all of Unicode.
- JSON lists and objects as the value of `text` are not modelled: `Gateway.Json` holds null, booleans, integers, floats and strings. In the source a non-empty list or object passes the emptiness and length checks by its element count; it then reaches the bot relay's HTTP post or `types.FormattedText(text=...)` outside any `try`, and what either does with it is not modelled.
- A chat object whose `first_name` attribute holds `None` while its title is falsy: the source appends `{"id": ..., "title": None}` to `ALL_CHATS`, then `is_study_chat(None)` raises and the `except` swallows it, so the chat is in `ALL_CHATS` with a null title and not in `STUDY_CHATS`. `ChatInfo.firstName` only distinguishes a missing attribute from a string, so this case is not modelled.
- `Directory.FailedChatAbsent`: assumes the client answers each `get_chat` with the chat asked for. The directory itself records the id the reply carries, as the source does.
