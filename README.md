# QuickLingo core, modelled in Dafny

QuickLingo is a Telegram bot that tutors Persian speakers in English. A webhook
receives Telegram updates, classifies them as text messages or new-member
events and hands them to a task queue; a worker builds a prompt (persona
instructions naming the sender, the last few stored turns, the new text), asks
an OpenAI chat model for a reply and prices the reply per token. A direct
handler answers group messages only when the bot is tagged. The store keeps
users, chats and messages.

This project models those decision and transformation rules:

- `json.dfy`, `strings.dfy`, `wrappers.dfy`: decoded JSON values and the
  pydantic field readers (required, optional with `None` default, boolean with
  default, alias paths, first-present alias choice); Python's `str.lower()`
  and `in`; `Option`/`Result`.
- `telegram_update_models.dfy`, `update_models.dfy`: the payload shapes as
  parse functions with encoders that they invert.
- `gen_ai_models.dfy`: model identifiers, the price table in exact reals,
  roles, the message log (a class grown in place), the reply record and
  `calculate_cost`.
- `generate_message.dfy`: handle removal, history formatting, the system-prompt
  name fallback, log assembly, reply classification and pricing.
- `message_handler.dfy`: the tag gate with generation and sending as recorded
  effects.
- `insert_functions.dfy`: the store as a class with two id-keyed maps and an
  append-only sequence.
- `main_app.dfy`: ingestion classification, the enqueue decision, the health
  answer.

The provider, the history query and the generator are function parameters: a
provider maps a request (model, messages, `max_tokens` 1500) to a reply body; the
history query maps (chat id, user id, n) to rows. Nothing is sent over a network.

`calculate_cost` assigns `self.cost` on a freshly parsed reply that nothing else
references; it is modelled as a function returning the updated record. The
older module `src/models/update_models.py` declares `FromWho`, `TelegramChat`
and `Message` with exactly the same validation rules as the newer module, so
the model reuses the newer parsers for them and models only its different
`TelegramUpdatePing`.

The code has no authorization check, no daily quota, no counting of
tagged turns, no welcome reply to new members and no recording of both turns,
so none of these is modelled. A payload whose message has neither `text` nor
`new_chat_member` is enqueued unchanged rather than dropped. The new-member key is
`new_chat_member`. The history query asks for 3 rows.

## Model

| member | source | states |
|---|---|---|
| `Json.LookupPathAppend` | src/models/gen_ai_models.py:57-71 | following an alias path step by step: the path `p + q` leads where `q` leads from the end of `p`, and nowhere when `p` leads nowhere |
| `Json.FirstPresent` | src/models/telegram_update_models.py:22-24 | an alias choice finds a value exactly when some alias is present, and it is the value of the first present alias |
| `Json.FirstPresentAgree` | src/models/telegram_update_models.py:22-24 | an alias choice depends only on the values under its aliases |
| `Json.RequiredStr` | src/models/telegram_update_models.py:15 | a required string field validates exactly when the key holds a string, and yields it |
| `Json.RequiredBool` | src/models/telegram_update_models.py:14 | a required bool field validates exactly when the key holds a boolean, and yields it |
| `Json.OptionalInt` | src/models/telegram_update_models.py:38 | an optional int field defaulting to `None`: absent or null gives `None`, an int is kept, any other value fails validation |
| `Json.TruthyIff` | src/genai/generate_message.py:86 | a value is truthy exactly when it is not one of Python's falsy values `None`, `False`, `0`, `0.0`, empty string, empty list, empty dict |
| `Json.RequiredInt` | src/models/telegram_update_models.py:13 | a required int field validates exactly when the key holds an int, and yields it |
| `Json.OptionalStr` | src/models/telegram_update_models.py:16-17 | an optional string field defaulting to `None`: absent or null gives `None`, a string is kept, any other value fails validation |
| `Json.BoolOrDefault` | src/models/telegram_update_models.py:26 | a boolean field with a default: absent gives the default, present validates exactly when it is a boolean, and yields it |
| `TelegramUpdateModels.ParseChatType` | src/models/telegram_update_models.py:6-9 | a chat type validates exactly when it is one of "group", "supergroup", "private", and it denotes that value |
| `TelegramUpdateModels.ParseUser` | src/models/telegram_update_models.py:12-17 | a user validates exactly when the object's `id`, `is_bot`, `first_name` hold an int, a bool and a string and `last_name`/`username` are absent, null or strings; it keeps those values |
| `TelegramUpdateModels.ParseChat` | src/models/telegram_update_models.py:20-26 | a chat validates exactly when it has an int `id`, a string title chosen by the alias rule, a `type` among the three chat types and an administrators flag that is absent (false) or a boolean; it keeps those values |
| `TelegramUpdateModels.ChatTitleAlias` | src/models/telegram_update_models.py:22-24 | the title is read from `title` when present, from `username` only when `title` is absent, and validation fails when both are absent |
| `TelegramUpdateModels.ParseMessage` | src/models/telegram_update_models.py:29-34 | a message validates exactly when it has an int `message_id`, a valid user under `from`, a valid chat under `chat`, an int `date` and a string `text`; it keeps them |
| `TelegramUpdateModels.ParsePing` | src/models/telegram_update_models.py:37-41 | a ping validates exactly when `update_id` is absent, null or an int and the first present of `message`/`result` holds a valid message; it keeps both |
| `TelegramUpdateModels.PingMessageAlias` | src/models/telegram_update_models.py:39-41 | the message comes from key `message` when present, else from `result`; with neither the update is rejected |
| `TelegramUpdateModels.ChatTitle` | src/models/telegram_update_models.py:22-24 | the title is read from `title` when that key is present, otherwise from `username`, and must be a string |
| `TelegramUpdateModels.UsernameTitleAccepted` | src/models/telegram_update_models.py:22-24 | a chat without `title` but with a string `username` is accepted, titled by that username |
| `TelegramUpdateModels.ResultMessageAccepted` | src/models/telegram_update_models.py:39-41 | a payload carrying its message under `result` and not `message` is accepted with that message |
| `TelegramUpdateModels.UserIgnoresOtherKeys` | src/models/telegram_update_models.py:12-17 | objects agreeing on the user's five declared keys validate alike, whatever other keys they carry |
| `TelegramUpdateModels.ChatIgnoresOtherKeys` | src/models/telegram_update_models.py:20-26 | objects agreeing on `id`, `title`, `username`, `type` and the administrators flag validate alike as chats |
| `TelegramUpdateModels.MessageIgnoresOtherKeys` | src/models/telegram_update_models.py:29-34 | objects agreeing on the message's five declared keys validate alike |
| `TelegramUpdateModels.PingIgnoresOtherKeys` | src/models/telegram_update_models.py:37-41 | payloads agreeing on `update_id`, `message` and `result` validate alike as pings |
| `TelegramUpdateModels.NewMemberDataIgnoresOtherKeys` | src/models/telegram_update_models.py:44-49 | objects agreeing on the new member's five declared keys validate alike |
| `TelegramUpdateModels.NewMemberWrapperIgnoresOtherKeys` | src/models/telegram_update_models.py:52-56 | objects agreeing on `new_chat_member`, `from`, `chat` and `date` validate alike |
| `TelegramUpdateModels.NewMemberIgnoresOtherKeys` | src/models/telegram_update_models.py:59-61 | payloads agreeing on `update_id` and `message` validate alike as new-member updates |
| `TelegramUpdateModels.PingNeedsText` | src/models/telegram_update_models.py:29-34 | a message object without `text` never validates as a ping |
| `TelegramUpdateModels.Defaults` | src/models/telegram_update_models.py:16-17 | absent `last_name`/`username` give `None`, absent `all_members_are_administrators` gives false, absent `update_id` gives `None` in both update types |
| `TelegramUpdateModels.ParseNewMemberData` | src/models/telegram_update_models.py:44-49 | the new member validates exactly when `id`, `is_bot`, `first_name` are an int, a bool and a string and `username`/`language_code` are absent, null or strings; it keeps them |
| `TelegramUpdateModels.ParseNewMemberWrapper` | src/models/telegram_update_models.py:52-56 | the wrapper validates exactly when `new_chat_member`, `from`, `chat` hold a valid member, user and chat and `date` is an int; it keeps them |
| `TelegramUpdateModels.ParseNewMember` | src/models/telegram_update_models.py:59-61 | a new-member update validates exactly when `update_id` is absent, null or an int and key `message` (no alias) holds a valid wrapper |
| `TelegramUpdateModels.UserRoundTrip` | src/models/telegram_update_models.py:12-17 | every user payload validates back to exactly that user |
| `TelegramUpdateModels.ChatRoundTrip` | src/models/telegram_update_models.py:20-26 | every chat payload validates back to exactly that chat |
| `TelegramUpdateModels.MessageRoundTrip` | src/models/telegram_update_models.py:29-34 | every message payload validates back to exactly that message |
| `TelegramUpdateModels.PingRoundTrip` | src/models/telegram_update_models.py:29-41 | every well-formed ping payload validates to exactly the update it encodes |
| `TelegramUpdateModels.NewMemberDataRoundTrip` | src/models/telegram_update_models.py:44-49 | every new-member record validates back to itself |
| `TelegramUpdateModels.NewMemberWrapperRoundTrip` | src/models/telegram_update_models.py:52-56 | every new-member wrapper validates back to itself |
| `TelegramUpdateModels.NewMemberRoundTrip` | src/models/telegram_update_models.py:44-61 | every well-formed new-member payload validates to exactly the update it encodes |
| `UpdateModels.ParsePing` | src/models/update_models.py:29-39 | the older update validates exactly when `update_id` is an int and key `message` holds a valid message; it keeps both |
| `UpdateModels.PingIgnoresOtherKeys` | src/models/update_models.py:37-39 | payloads agreeing on `update_id` and `message` validate alike under the older shape |
| `UpdateModels.UpdateIdRequired` | src/models/update_models.py:38 | without an int `update_id` (absent or null) the older update is rejected |
| `UpdateModels.NoResultAlias` | src/models/update_models.py:39 | the older update has no `result` alternative |
| `UpdateModels.OlderAcceptsLess` | src/models/update_models.py:37-39 | whatever the older shape accepts, the newer shape accepts with the same message and that `update_id` |
| `UpdateModels.NewerAcceptsMore` | src/models/update_models.py:38 | a ping without `update_id` passes the newer shape and fails the older one |
| `UpdateModels.PingRoundTrip` | src/models/update_models.py:12-39 | every well-formed older payload validates back to its update |
| `GenAiModels.EveryModelPriced` | src/models/gen_ai_models.py:20-30 | the price table's keys are exactly the identifiers of the model enum |
| `GenAiModels.RatesPositive` | src/models/gen_ai_models.py:20-24 | every rate in the table is positive |
| `GenAiModels.ParseRole` | src/models/gen_ai_models.py:33-36 | a role validates exactly from "system", "user" or "assistant" |
| `GenAiModels.RoleValues` | src/models/gen_ai_models.py:33-36 | the three role values are distinct, each validates back to its role, and the AI role is "assistant" |
| `GenAiModels.LLMMessageLog.constructor` | src/models/gen_ai_models.py:48-53 | a log starts with the given messages |
| `GenAiModels.LLMMessageLog.Extend` | src/genai/generate_message.py:209 | extending appends the given messages in order |
| `GenAiModels.LLMMessageLog.Append` | src/genai/generate_message.py:210-212 | appending adds one message at the end |
| `GenAiModels.OptionalCost` | src/models/gen_ai_models.py:72 | an absent or null `cost` reads as `None`; a number is kept as its value, an integer widened; any other value fails validation |
| `GenAiModels.ParseAIResponse` | src/models/gen_ai_models.py:56-72 | a reply validates exactly when `choices[0].message.content` is a string, `usage.prompt_tokens` and `usage.completion_tokens` are ints and `cost` is absent, null or a number; the record then holds those values |
| `GenAiModels.ReplyRoundTrip` | src/models/gen_ai_models.py:56-72 | every reply record, written out as a provider body, validates back to itself |
| `GenAiModels.MissingPathFails` | src/models/gen_ai_models.py:57-71 | a reply missing any of the three paths fails validation |
| `GenAiModels.TokenCost` | src/models/gen_ai_models.py:78-80 | with non-negative rates and counts the cost is non-negative; zero tokens cost nothing; with no completion tokens only the input rate counts |
| `GenAiModels.CalculateCost` | src/models/gen_ai_models.py:74-80 | an unknown model is a KeyError; otherwise cost is input rate times prompt tokens plus output rate times completion tokens, and the other fields are unchanged |
| `GenAiModels.EnumPricingNeverFails` | src/models/gen_ai_models.py:20-30 | pricing with an enum model's identifier never fails |
| `GenAiModels.CostProperties` | src/models/gen_ai_models.py:20-24 | for non-negative counts cost is non-negative, zero for zero tokens, and monotone in each count |
| `GenAiModels.Gpt4oExample` | src/models/gen_ai_models.py:21 | 100 prompt and 50 completion tokens on gpt-4o cost exactly 0.00125 |
| `GenerateMessage.WordRun` | src/genai/generate_message.py:146 | the greedy `\w+` run is maximal: all word characters, followed by a non-word character or the end |
| `GenerateMessage.NoHandleLeft` | src/genai/generate_message.py:146-148 | after removal no `@` is immediately followed by a word character |
| `GenerateMessage.OnlyHandlesDeleted` | src/genai/generate_message.py:146-149 | the output is a subsequence of the input, no longer, and keeps every character other than `@` and word characters in order |
| `GenerateMessage.NoHandleFixed` | src/genai/generate_message.py:146-149 | text without a handle is returned unchanged |
| `GenerateMessage.Idempotent` | src/genai/generate_message.py:146-148 | removing handles twice equals removing them once |
| `GenerateMessage.RemoveHandles` | src/genai/generate_message.py:146-148 | the cleaned message is never longer than the input, and a message with no `@` is returned unchanged |
| `GenerateMessage.RunStart` | src/genai/generate_message.py:146-148 | the start of the run of word characters ending at a position: every character from it up to the position is a word character and the one before it is not |
| `GenerateMessage.RemovesExactlyHandles` | src/genai/generate_message.py:146-148 | the cleaned message is the input with exactly the positions inside an `@\w+` match deleted (an `@` followed by a word character, and the word characters of the run after it); every other character, including word characters and a lone `@`, is kept in its original order |
| `GenerateMessage.HelloBob` | src/genai/generate_message.py:146-148 | "hello @bob" becomes "hello " |
| `GenerateMessage.ToLLMMessages` | src/genai/generate_message.py:173 | one prompt message per row, in order, copying role and text; an invalid role fails validation |
| `GenerateMessage.FormatTelegramChatHistory` | src/genai/generate_message.py:171-173 | the rows of the (chat id, sender id, n=3) query become prompt messages one for one |
| `GenerateMessage.DisplayName` | src/genai/generate_message.py:204 | username if non-empty, else first name if non-empty, else "friend"; never empty |
| `GenerateMessage.SystemMessage` | src/genai/generate_message.py:198-207 | the system prompt has the system role and contains `@` followed by the chosen name |
| `GenerateMessage.AssembleLog` | src/genai/generate_message.py:198-212 | the log is the system prompt, then the history unchanged, then a user message with the update's text: length history plus two |
| `GenerateMessage.InvokeOpenAI` | src/genai/generate_message.py:67-94 | one request carrying the model, the log and `max_tokens` 1500; succeeds exactly when the answer is a JSON object with no truthy `error` that validates, and then returns the validated reply; every failure is a provider error or a parse failure |
| `GenerateMessage.ErrorFlaggedIff` | src/genai/generate_message.py:86 | `data.get("error")` is truthy exactly when the key `error` is present with a value that is not falsy |
| `GenerateMessage.ClassifyReply` | src/genai/generate_message.py:84-94 | a truthy `error` fails with its `message` (or a parse failure when that is missing); a non-object or unreadable body fails; otherwise the reply is validated, failing when validation fails |
| `GenerateMessage.HandlerGenerateResponse` | src/genai/generate_message.py:97-124 | fails exactly when the provider call fails; on success the reply keeps its text and counts and gets the enum model's cost; never an unknown-model failure |
| `GenerateMessage.EntryGenerateResponse` | src/genai/generate_message.py:176-215 | builds the log in place from the system prompt, the formatted history and the user's text, and prices the provider's answer for gpt-4o-mini; an invalid history role fails first |
| `Strings.Lower` | src/core/message_handler.py:27 | lower-casing keeps the length and maps each character on its own |
| `Strings.ContainsIff` | src/core/message_handler.py:27 | the substring test succeeds exactly when the needle occurs at some position |
| `Strings.ContainsEmbedded` | src/core/message_handler.py:27 | a needle embedded anywhere is found |
| `Strings.LowerAppend` | src/core/message_handler.py:27 | lower-casing distributes over concatenation |
| `MessageHandler.EntryProcessMessage` | src/core/message_handler.py:22-31 | untagged group text ends with nothing done; otherwise generation is called once, then send once with its result, which is returned; a generation error stops before sending |
| `MessageHandler.ShouldRespondIff` | src/core/message_handler.py:25-27 | private chats always proceed; group and supergroup messages proceed exactly when `@quicklingo` occurs at some position of the lower-cased text |
| `MessageHandler.UntaggedGroupIgnored` | src/core/message_handler.py:25-28 | group or supergroup text lacking the tag returns nothing, with no generation and no send |
| `MessageHandler.TagAnywhereAnyCase` | src/core/message_handler.py:27 | a tag in any letter case anywhere in the text, even inside a longer word, proceeds |
| `MessageHandler.MixedCaseTag` | src/core/message_handler.py:27 | "@QuickLingo" proceeds |
| `MessageHandler.LowerMixedCaseTag` | src/core/message_handler.py:27 | "@QuickLingo" lower-cases to the tag |
| `MessageHandler.CaseInsensitive` | src/core/message_handler.py:27 | texts equal after lower-casing get the same decision |
| `InsertFunctions.UserRowOf` | src/postgres/insert_functions.py:45-51 | the users row keeps every field of the Telegram user: id, bot flag, first name, last name, username |
| `InsertFunctions.ChatRowOf` | src/postgres/insert_functions.py:90 | the chats row keeps the chat's id, title and type |
| `InsertFunctions.MessageRowOf` | src/postgres/insert_functions.py:153-163 | the messages row holds message, sender and chat ids, the text, the role as a string that validates back to the role, the cost, both counts and the tag flag |
| `InsertFunctions.UsersAfterInsert` | src/postgres/insert_functions.py:34-54 | a known id leaves the users table unchanged; a new id adds exactly one row with id, names, username and bot flag; existing rows are kept |
| `InsertFunctions.ChatsAfterInsert` | src/postgres/insert_functions.py:79-93 | a known id leaves the chats table unchanged; a new id adds exactly one row with id, title and type |
| `InsertFunctions.InsertUserIdempotent` | src/postgres/insert_functions.py:37 | inserting a user twice equals inserting once |
| `InsertFunctions.InsertUserKeepsFirst` | src/postgres/insert_functions.py:37 | a later insert with the same id does not overwrite the stored names |
| `InsertFunctions.InsertChatIdempotent` | src/postgres/insert_functions.py:82 | inserting a chat twice equals inserting once |
| `InsertFunctions.ConversationStore.constructor` | src/postgres/insert_functions.py:12-166 | the store starts with three empty tables |
| `InsertFunctions.ConversationStore.InsertUser` | src/postgres/insert_functions.py:12-54 | changes only the users table, as insert-or-do-nothing keyed by id |
| `InsertFunctions.ConversationStore.InsertChat` | src/postgres/insert_functions.py:57-93 | changes only the chats table, as insert-or-do-nothing keyed by id |
| `InsertFunctions.ConversationStore.InsertMessage` | src/postgres/insert_functions.py:96-166 | changes only the messages table, appending one row of message id, role value, sender id, chat id, text, cost, counts and tag flag; defaults 0, 0, 0, false |
| `InsertFunctions.Redelivered` | src/postgres/insert_functions.py:134-146 | recording the same message twice keeps one user and one chat but appends two rows |
| `MainApp.HealthCheck` | src/fastapp/main_app.py:28-30 | the health answer is "I'm running smoothly" |
| `MainApp.PyIn` | src/fastapp/main_app.py:46-48 | `in` is a key test on objects, a substring test on strings, membership on lists, and a TypeError otherwise |
| `MainApp.Classify` | src/fastapp/main_app.py:45-55 | a missing `message`, or one on which `in` raises, drops the update; a non-object `message` is at most enqueued raw; what is enqueued is the validated ping, the validated new-member update, or the raw payload unchanged |
| `MainApp.TaskQueue.Delay` | src/fastapp/main_app.py:55 | enqueuing appends one item |
| `MainApp.ListenForUpdates` | src/fastapp/main_app.py:33-56 | enqueues at most once, exactly the classification's item, and nothing when the update is dropped |
| `MainApp.TextTakesPrecedence` | src/fastapp/main_app.py:46-47 | whenever `"text" in message` holds (object key, substring or list element), the update is a validated ping or dropped, never a new-member update |
| `MainApp.NewMemberWithoutText` | src/fastapp/main_app.py:48-49 | when `"text" in message` is false and `"new_chat_member" in message` is true, the update is validated as a new-member update and dropped when invalid |
| `MainApp.TypeErrorDropped` | src/fastapp/main_app.py:45-53 | a `message` that is null, a number or a boolean makes `in` raise `TypeError`, and the update is dropped |
| `MainApp.NonObjectMessageMatchDropped` | src/fastapp/main_app.py:46-53 | a string or list `message` that contains `text` or `new_chat_member` fails validation, and the update is dropped |
| `MainApp.RawOnlyWithoutKeyWords` | src/fastapp/main_app.py:46-55 | a raw payload is enqueued only when `message` exists and both `in` tests are false |
| `MainApp.NeitherKeyEnqueuedRaw` | src/fastapp/main_app.py:46-49 | a message with neither key is enqueued as the raw payload |
| `MainApp.StringMessageEnqueuedRaw` | src/fastapp/main_app.py:46-49 | a string `message` containing neither word is enqueued raw as well |
| `MainApp.PingReadFromMessageKey` | src/fastapp/main_app.py:46-47 | an enqueued ping's message is the one under key `message` |
| `MainApp.WellFormedPingEnqueued` | src/fastapp/main_app.py:46-47 | every well-formed text update is enqueued as exactly that update |
| `MainApp.WellFormedNewMemberEnqueued` | src/fastapp/main_app.py:48-49 | every well-formed new-member update is enqueued as exactly that update |

## Left out

- Network I/O: the HTTP post to the provider (its headers, API key and 120 s timeout), sending Telegram messages, polling for updates and setting the webhook. The provider and the history query are function parameters; sending is a recorded effect.
- The task-queue runtime (broker, serializers, worker); the queue is a sequence of enqueued items. The worker calls the generator directly, without the tag gate.
- The connection pool and SQL: the store is in memory. The auto-assigned row id, the insertion timestamp and any foreign-key or other database constraint are not part of this model, and so no insert here can fail.
- `get_last_n_messages` is not part of this model (its definition is not available): its rows are an input. `check_if_chat_is_authorized` is not used by the modelled code.
- Logging (`print`) of dropped updates and of failed replies.
- Pydantic's lax coercions (numeric strings or integral floats for `int`, `0`/`1` and words such as "true" for `bool`) and the content of validation errors: a failed validation is only `None`, and `float` fields take integers or reals.
- `send_message` raising inside the direct handler, and exception types beyond the cases listed in `GenError`.
- `str.lower()` and `\w` are modelled on ASCII only (Unicode case mapping and Unicode word classes are not).
- Floating-point rounding: prices and costs are exact reals.
- The persona prompt's wording is a placeholder; only the position of the tagged name is modelled.
- `GenerateMessage.ClassifyReply`: RuntimeError, KeyError, TypeError, AttributeError, JSON decoding and validation errors other than the provider's error are one `ReplyParseError`.
- `InsertFunctions.ChatRowOf`: the chat type is stored as the enum, not as the text the database driver would write for it.
