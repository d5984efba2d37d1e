# WhatsApp LLM assistant: conversation context and auto-reply core

This project models the conversation-context and auto-reply logic of the
WhatsApp LLM assistant (an Electron desktop application). It proves
properties of that model in Dafny. The four parts of the core are modelled
each as written, quirks included, and are not merged:

- `openai_js.dfy` (module `OpenAiJs`): the engine of the original JavaScript
  application.
  - `trimMessages` bounds a role-tagged list by message count.
  - `formatMessagesForLLM` turns chat messages into prompt turns.
  - `getLLMMessage` selects a provider: API key plus model, then a custom
    endpoint, then a random "stall" reply. It caches the SDK client for
    good, and it adds the system entry to the caller's list in place.
- `llm_ts.dfy` (module `Llm`): the provider adapter of the TypeScript
  application.
  - Module state: the current settings and the hosted-API client, as class
    `LlmModule`.
  - Prompt building from the newest `2 * maxHistoryLength` messages.
  - Provider dispatch, in which every error becomes one fixed fallback reply.
  - The configuration test, which swaps the settings and restores them in a
    `finally` block.
- `whatsapp_ts.dfy` (module `WhatsApp`): the chat registry and auto-reply
  state machine, as class `WhatsAppService`.
  - The chats `Map`, modelled as a map plus its key insertion order.
  - The `Set` of auto-reply chat ids.
  - The single global feedback-loop guard: `isAutoReplying` and
    `autoReplyingChatId`.
  - The conversation store, which keeps the newest 100 messages of each chat.
  - The events sent to the user interface, and the messages handed to the
    transport.
- `commons_js.dfy` (module `CommonsJs`): the character-budget trimmer.
  - It cuts a contact's log in place until the log fits 4000 characters.
  - It then puts the first system entry in front and drops every other
    system entry.
- `common.dfy` (module `Common`): the shared value types (prompt entry,
  chat message, transport message, the shape of a completion reply) and
  JavaScript's `Array.prototype.slice(start)`.

External calls become inputs:
- Each completion call's outcome is a `RawReply`: the call failed, or it
  returned a body whose `choices` may be missing, empty, lack a `message`,
  or carry null content.
- The transport's chat listing, the chat information it resolves for a new
  chat, and the success of a send are parameters.
- The settings file is an `Option` (absent when it could not be read).
- The random stall reply is an arbitrary element of the list.

Every handler of the main process runs as one sequential step.

Invariants that every `WhatsAppService` method keeps (`Valid`):
- Each chat is stored under its own id.
- `autoReplyEnabled` holds exactly when the id is in the auto-reply set.
- The key order lists every registered id once.
- Only our own messages are ever tagged `isLLMResponse`, in the registry and
  in the store.
- `isAutoReplying` holds exactly when `autoReplyingChatId` is set.

Quirks of the code the model keeps:
- `getLLMMessage` caches the first client it builds. A later provider change
  still goes through that client.
- Sending a reply leaves the guard raised until the echo of our own message
  arrives. The `catch` that would clear it cannot be reached, because
  neither the reply generator nor `sendMessage` raises.
- A negative `maxHistoryLength` makes `slice` drop the oldest messages
  instead of keeping the newest.
- `testLLMConfiguration`, called before any `configureLLM`, rejects: the
  `finally` block reads a property of `undefined`. The test client then
  stays in place.
- In `commons.js` a leading system entry is never evicted by the loop.

## Model

| member | source | states |
|---|---|---|
| Common.SliceFromIsSuffix | app/js/openai.js:69-72 | `slice(start)` is a suffix of the list: the newest `-start` entries for a negative start (the whole list if shorter), the list minus its first `start` entries otherwise |
| OpenAiJs.GetRandomStallMessage | app/js/openai.js:31-57 | the stall reply is always one of the twenty fixed messages |
| OpenAiJs.TrimMessages | app/js/openai.js:60-73 | empty input or a bound `<= 0` gives `[]`; a list within the bound is returned unchanged; for a bound `>= 1` the length is `min(n, bound)`; a leading system entry stays first, once, followed by the newest entries; otherwise the result is the newest entries in order |
| OpenAiJs.TrimIdempotent | app/js/openai.js:64 | trimming an already trimmed list changes nothing |
| OpenAiJs.TrimSevenToFive | __tests__/unit/message-processing.test.js:37-58 | the unit test's seven-entry history with bound 5 gives the system entry followed by the last four entries |
| OpenAiJs.TrimToSystemOnly | __tests__/unit/message-processing.test.js:60-70 | with bound 1 a list that starts with a system entry trims to exactly that entry |
| OpenAiJs.FormatMessagesForLLM | app/js/openai.js:76-92 | `n + 1` entries: the system prompt first, then for each message a turn with its body, `assistant` exactly when it is our own, never `system` |
| OpenAiJs.ReadContent | app/js/openai.js:145 | `response.choices[0].message.content` reads a value exactly when the call succeeded and a first choice has a message, and the value is that message's content, `""` included; otherwise it throws |
| OpenAiJs.SelectProvider | app/js/openai.js:113-123 | the hosted API exactly when key and model are both non-empty; the custom endpoint exactly when that fails and the endpoint is non-empty; no provider otherwise; the chosen values come from the settings |
| OpenAiJs.EndpointWithoutModelIsCustom | app/js/openai.js:113-119 | a key with an endpoint but no model selects the custom endpoint |
| OpenAiJs.WithSystem | app/js/openai.js:103-105 | a list that does not start with a system entry gets the system prompt in front of all its entries; one that does is left as it is |
| OpenAiJs.OpenAiModule.GetLLMMessage | app/js/openai.js:94-172 | an unreadable settings file gives a stall reply, leaving the list and the client alone; otherwise the caller's list gains the system entry; the request goes to the provider selection picks, through the cached client, which is created only when none exists yet; no provider, a failed call or an unreadable body gives a stall reply; otherwise the reply is the first choice's content, null included |
| Llm.ClientFor | src/main/llm.ts:52-58 | a client exists exactly for the `openai` provider with a non-empty key, and it carries that key |
| Llm.OrNull | src/main/llm.ts:116 | an empty string reads as null: the result is present exactly when the content is a non-empty string |
| Llm.ToTurns | src/main/llm.ts:93-98 | one turn per message, in order, with the message's body; `assistant` exactly for our own messages, `user` otherwise |
| Llm.PromptHasOneSystemEntry | src/main/llm.ts:84-88 | of the prompt `PrepareMessagesForLLM` builds: the prompt starts with the system prompt, and no later entry is a system entry |
| Llm.PromptIsNewestTurns | src/main/llm.ts:91-98 | of the prompt `PrepareMessagesForLLM` builds: after the system entry come the turns of the newest messages of the chat, in their order |
| Llm.PromptLength | src/main/llm.ts:91 | of the prompt `PrepareMessagesForLLM` builds: the newest `min(n, 2 * maxHistoryLength)` messages are kept; all of them when the length is 0 (`slice(-0)`); for a negative length the oldest `-2 * maxHistoryLength` are dropped |
| Llm.FirstContent | src/main/llm.ts:139 | the optional chain through the first choice: never `""`; present exactly when a first choice has a message with non-empty text, and then that text |
| Llm.GenerateOpenAIResponse | src/main/llm.ts:104-117 | no client raises "OpenAI client not initialized"; a failed call raises its error; an empty `choices` gives null, not an error; a first choice with a message returns its content, empty read as null; a body without `choices` or a first choice without a message raises a read of undefined |
| Llm.GenerateCustomEndpointResponse | src/main/llm.ts:120-140 | no endpoint raises "API endpoint not configured"; with one, only a failed call raises; any answer returns the first choice's content, null when a link of the chain is missing or the text is empty |
| Llm.ProviderCall | src/main/llm.ts:68-76 | `openai` calls the client, `local` and `custom` the endpoint; any other provider raises "Unsupported LLM provider" with its name |
| Llm.Quote | src/main/llm.ts:177 | responses of up to 50 characters are quoted whole; longer ones as their first 50 characters and "..." |
| Llm.TestReportFor | src/main/llm.ts:157-183 | success exactly when the test call returns non-empty content, then with the quoted response; null content reports "LLM returned empty response"; any raised error is reported as a failure with that error's message; an unsupported provider reports its name |
| Llm.Resolve | src/main/llm.ts:77-80 | every raised error becomes the fixed fallback reply; returned content, null included, passes through |
| Llm.ResponseFor | src/main/llm.ts:62-81 | the reply under given settings and client: the fallback without settings, for an unsupported provider, for `openai` without a client, for local or custom without an endpoint, for a failed call, and for a hosted-API body without `choices` or whose first choice has no message; null for an empty `choices` from the hosted API and for a malformed endpoint body; otherwise the first message's content; never `""` |
| Llm.LlmModule.constructor | src/main/llm.ts:44-45 | settings undefined and no client at start |
| Llm.LlmModule.ConfigureLLM | src/main/llm.ts:48-59 | the settings become `s`, and the client is the one `s` calls for |
| Llm.LlmModule.GenerateLLMResponse | src/main/llm.ts:62-81 | a request is sent exactly when settings exist and either an `openai` client exists or a local or custom provider has an endpoint; otherwise the reply is the fallback; the request carries the model, the prompt built from the chat, the temperature and `max_tokens` 500; its target is the client or the endpoint; the reply is the resolved call result, which is the reply ResponseFor gives for the current settings and client; it is never `""` |
| Llm.LlmModule.TestLLMConfiguration | src/main/llm.ts:143-188 | the settings in force before the call are restored whatever the outcome, the client with them; the result is the test report; called before any configuration it rejects with a read of `provider` of undefined and keeps the test client; a test request goes out exactly when the test settings have an `openai` client or a local or custom endpoint; it holds the system prompt and the fixed greeting, the test model and temperature and `max_tokens` 500, and goes through the test client or to the test endpoint |
| CommonsJs.TotalCharsAppend | app/js/commons.js:94 | `TotalChars`, the `reduce` over content lengths, adds up over concatenation |
| CommonsJs.FirstSystem | app/js/commons.js:96 | none exactly when no entry is a system entry; otherwise a system entry of the log with no system entry before it |
| CommonsJs.NonSystem | app/js/commons.js:110 | only non-system entries, all from the input, never more of them than the input has; every non-system entry of the input is kept |
| CommonsJs.NonSystemSingleton | app/js/commons.js:110 | a single entry is kept exactly when it is not a system entry |
| CommonsJs.EvictOne | app/js/commons.js:99-104 | one eviction step removes exactly one entry |
| CommonsJs.EvictLoop | app/js/commons.js:98-106 | the loop never lengthens the log |
| CommonsJs.EvictOneFacts | app/js/commons.js:99-104 | a step keeps the first system entry and a leading system entry, removes the oldest non-system entry if any, and without system entries it is `shift()` |
| CommonsJs.EvictLoopFacts | app/js/commons.js:98-106 | the loop stops within 4000 characters or at one entry; it keeps the first system entry and a leading one; the non-system entries left are the newest, in order; a log within budget is untouched |
| CommonsJs.TrimmedLogFits | app/js/commons.js:98-111 | of `TrimmedLog`: the trimmed log fits 4000 characters or has at most one entry |
| CommonsJs.TrimmedLogSystemFirst | app/js/commons.js:96-111 | of `TrimmedLog`: with any system entry in the input, the trimmed log starts with the first one found and holds no other system entry |
| CommonsJs.TrimmedLogNoSystem | app/js/commons.js:98-106 | of `TrimmedLog`: without system entries, trimming only evicts the oldest entries |
| CommonsJs.TrimmedLogKeepsNewest | app/js/commons.js:98-110 | of `TrimmedLog`: the non-system entries kept are the newest ones, in their order |
| CommonsJs.TrimmedLogWithinBudget | app/js/commons.js:98-111 | of `TrimmedLog`: a log within budget loses no entry; only extra system entries are dropped, and without system entries it is unchanged |
| CommonsJs.TrimmedLogLeadingSystem | app/js/commons.js:100-106 | of `TrimmedLog`: a leading system entry is never evicted, so the log ends up within budget or as that entry alone |
| CommonsJs.Contact.TrimMessages | app/js/commons.js:93-112 | the in-place loop leaves exactly the trimmed log |
| CommonsJs.FindContact | app/js/commons.js:68 | the index of the first contact with the id, or none exactly when no contact has it |
| CommonsJs.AddMessageToContact | app/js/commons.js:67-73 | the first matching contact's log becomes the trimmed log with `{role, content}` appended; no other log changes; with no match nothing changes |
| CommonsJs.AddSystemMessageToContact | app/js/commons.js:75-90 | with a prompt and a match the log becomes the single system entry; without a prompt (settings missing) or without a match nothing changes |
| CommonsJs.SendMessage | app/js/commons.js:114-116 | appends an `assistant` entry as `addMessageToContact` does |
| WhatsApp.ConvertMessage | src/main/whatsapp.ts:252-264 | never tagged as an LLM response; id, body, sender flag, timestamp, media, forwarded and starred flags copied; the author exactly when it is non-empty |
| WhatsApp.SaveWindowIsSlice | src/main/whatsapp.ts:393-397 | of `SaveWindow`: the store keeps `messages.slice(-100)`: the newest `min(n, 100)` messages, in order |
| WhatsApp.SaveKeepsTags | src/main/whatsapp.ts:393-397 | saving a log whose tags are on our own messages keeps every stored log that way |
| WhatsApp.WithMessageAppends | src/main/whatsapp.ts:323-334 | of `WithMessage`: one message appended at the end, earlier messages unchanged; it becomes `lastMessage`; the timestamp moves to it; unread count rises by one only for others' messages; identity and auto-reply flag unchanged |
| WhatsApp.TagLastOnlyTags | src/main/whatsapp.ts:186-195 | of `TagLast`: tagging changes only the newest message's tag, and `lastMessage` shows the tagged message |
| WhatsApp.TagLastKeepsTags | src/main/whatsapp.ts:186-195 | of `TagLast`: tagging our own newest message keeps tags on our own messages only |
| WhatsApp.RecordedKeepsInvariant | src/main/whatsapp.ts:299-334 | of `Recorded` and `RecordedOrder`: recording a message keeps each chat under its id, `autoReplyEnabled` in step with the set (a new chat takes `autoReplyChatIds.has(id)`), the key order exact (a new id goes last) and tags on our own messages |
| WhatsApp.RecordedEndsWith | src/main/whatsapp.ts:299-334 | of `Recorded`: the message's chat, keyed by `to` for our own messages and `from` otherwise, exists and its log ends with the message; other chats are unchanged and no other chat appears |
| WhatsApp.MapValuesComplete | src/main/whatsapp.ts:385 | `Array.from(chats.values())` holds every registered chat, one per key, position by position in key order |
| WhatsApp.SortNewestFirstSorts | src/main/whatsapp.ts:385-386 | of `SortNewestFirst` (through `Insert`): the sort puts the newest first and is a permutation of its input |
| WhatsApp.ChatListComplete | src/main/whatsapp.ts:383-390 | of `ChatList`: the emitted chat list is sorted newest first and holds every registered chat, one entry per chat |
| WhatsApp.DecisionFromChat | src/main/whatsapp.ts:286-288 | of `ShouldAutoReply`: with the registry in step, the auto-reply decision for a known chat is its own flag or the global switch, for messages not our own and not status |
| WhatsApp.LoadAllKeepsRegistry | src/main/whatsapp.ts:221-242 | of `LoadAll`: loading a listing keeps the registry invariant |
| WhatsApp.LoadAllLastListingWins | src/main/whatsapp.ts:221-242 | of `LoadAll`: for every listing entry with no later entry of the same id, its chat after loading is the one built from that entry |
| WhatsApp.LoadAllContents | src/main/whatsapp.ts:221-242 | of `LoadAll`: after loading, every listed chat is registered; the last listing of each id decides its chat; unlisted chats are kept; no chat appears unlisted |
| WhatsApp.IncomingPromptEnds | src/main/whatsapp.ts:276-291 | for a non-negative `maxHistoryLength`, right after an incoming message is recorded, the prompt built from its chat ends with that message as a `user` turn (a negative length can drop it) |
| WhatsApp.ToggleKeepsRegistry | src/main/whatsapp.ts:447-460 | toggling keeps `autoReplyEnabled` in step with the set for every chat |
| WhatsApp.WhatsAppService.constructor | src/main/whatsapp.ts:63-72 | guard lowered, no chats, empty set, over the store saved earlier |
| WhatsApp.WhatsAppService.SendMessage | src/main/whatsapp.ts:502-512 | without a client nothing is sent and the result is false; otherwise the message is handed over and the transport's answer is the result |
| WhatsApp.WhatsAppService.LoadChats | src/main/whatsapp.ts:216-249 | without a client nothing happens; otherwise every listed chat is set in turn (store log, auto-reply flag from the set, converted last message) and the chat list is emitted; the invariant is kept |
| WhatsApp.WhatsAppService.UpdateChatWithMessage | src/main/whatsapp.ts:299-341 | the registry becomes the recorded one, the store keeps the newest 100 messages of the chat, and the chat list is emitted; guard and set unchanged |
| WhatsApp.WhatsAppService.GenerateAndSendAutoReply | src/main/whatsapp.ts:344-380 | an unknown chat leaves everything, the guard included; otherwise the guard is raised for the chat before generating; a null reply lowers it and sends nothing; a reply is handed to the transport and leaves the guard raised; the reply is the one ResponseFor gives for the module's settings and client; a request goes out exactly when those settings reach a backend (`SendsRequest`), with the prompt built from the chat's log |
| WhatsApp.WhatsAppService.HandleIncomingMessage | src/main/whatsapp.ts:267-296 | status messages change nothing; otherwise the message is recorded, the list and the message are emitted, and a generation runs exactly when the message is not our own and its sender is in the set or replying to all is on; the reply is the one ResponseFor gives for the module's settings and client, and a request goes out exactly when those settings reach a backend; a non-null reply goes to the transport when the client is ready |
| WhatsApp.WhatsAppService.TagEcho | src/main/whatsapp.ts:192-200 | tags the chat's newest message, saves the log and lowers the guard |
| WhatsApp.WhatsAppService.OnMessageCreate | src/main/whatsapp.ts:177-209 | others' messages change nothing; our own is recorded; its newest message is tagged exactly when the guard names this chat, and then the guard is lowered, so an echo is tagged once; the message event carries the newest message as tagged |
| WhatsApp.WhatsAppService.RefreshChats | src/main/whatsapp.ts:490-493 | the chat list is emitted again |
| WhatsApp.WhatsAppService.ToggleAutoReply | src/main/whatsapp.ts:447-460 | the id is added to or removed from the set; a registered chat's flag follows, and only then is the list emitted; the invariant is kept |
| WhatsApp.WhatsAppService.GetChatHistory | src/main/whatsapp.ts:468-487 | a known chat is marked read (unread count 0) and returned with its messages; an unknown one gives none; the list is emitted either way |
| WhatsApp.WhatsAppService.Logout | src/main/whatsapp.ts:400-442 | without a client: failure, "WhatsApp client not initialized", nothing cleared; otherwise chats, set and guard are cleared before the client is destroyed; a destruction error fails with its message (or "Unknown error") and keeps the client |

## Left out

- Network, SDK and HTTP calls (the OpenAI client, `axios.post`, `openai.createChatCompletion`): their outcomes are the `RawReply` inputs.
- The transport client (`whatsapp-web.js`, puppeteer, QR codes, the `ready`, `disconnected` and `auth_failure` events) is not part of this model. `getChat`/`getContact` lookups are the `ChatInfo` and `ChatListing` inputs, with the display name already resolved.
- The `Date.now()` fallbacks for a zero timestamp: timestamps are taken as the transport delivers them.
- `electron-store`, `settings.json` and IPC wiring: the store is a map from key to log; the settings are parameters; events to the window are the `uiEvents` sequence.
- `readSettings` and `addSystemMessageToContact` in `app/js/commons.js` use `path` without importing it, so as written they throw. The model takes the system prompt as a parameter. `getOpenAIResponse` in that file reads an undefined `settings` and is not part of this model.
- The `NODE_ENV === 'test'` branch of `getLLMMessage` and `sendMessageToLLM` are test scaffolding and are not part of this model.
- String lengths count `char`s, not UTF-16 code units. `temperature` is an opaque real that is passed through.
- Async interleaving: each handler is one step, so messages arriving while a reply is being generated are not modelled.
- A failure part-way through `loadChats` (a rejected `getContact`) is not modelled. The loop always completes.
- Errors thrown inside `handleIncomingMessage` or `updateChatWithMessage` (a rejected `getChat`) are not modelled.
- The removal of the authentication directory on logout, which never affects the result.
- `getLLMMessage` changes the caller's array in place. The model returns the changed list as `after` instead of aliasing it.
- WhatsApp.SortNewestFirstSorts: proves sorted and permutation, but not that chats with equal timestamps keep their `Map` order (the sort is stable in the source).
- WhatsApp.WhatsAppService.HandleIncomingMessage: does not itself state that the prompt ends with the incoming message. WhatsApp.IncomingPromptEnds proves that about the same registry.
