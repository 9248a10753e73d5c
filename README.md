# bot-wsp in Dafny

This project models the WhatsApp AI bot bot-wsp and proves properties of the model. The repository holds two bots: the TypeScript bot under `src/` and the single-file JavaScript bot `index.js`. The model covers both cores.

**The TypeScript bot.** It routes every inbound message: it drops it, dispatches it as a `!command`, or puts it in a per-sender message queue. A flushed queue becomes one prompt for an NVIDIA (OpenAI-compatible) completion endpoint. The model covers:
- the routing decision and the command registry;
- the queue with its debounce timers and flush;
- the reply-suppression policy for generated text and the stale-queue sweep;
- `sendMessage` validation, `destroy` and the connection status.

**The JavaScript bot.** It answers private chats through Google Gemini, in the voice of a selected persona profile. The model covers:
- persona resolution and the tone directive;
- the assembled request and the cut of the answer to 80 characters;
- per-chat conversation memory, the chat history and the log of answered messages;
- the profile and blacklist menu actions.

**Modules.**
- `Wrappers`: `Option` and `Result`.
- `Text`: the JavaScript string operations used: `trim`, `split(/\s+/)`, `join`, `toLowerCase`, `startsWith`, `includes` and `lastIndexOf`.
- `Types`: the records of `src/types/index.ts`.
- `Utils`: `src/utils/index.ts`.
- `Commands`: `src/bot/commands.ts`.
- `Gpt`: `src/gpt/NvidiaGPTService.ts`.
- `Bot`: class `WhatsAppBot`, for `src/bot/WhatsAppBot.ts`.
- `Legacy`: the expression-level logic of `index.js`.
- `LegacyApp`: class `LegacyBot`, the global state of `index.js` and the handlers that change it.

**State and effects.** State that the source changes in place becomes a class field that methods reassign. Effects on the outside world go to a ghost `log` of effects: replies, sends, endpoint calls and emitted events. Each method's contract states exactly what it appends there.

**External inputs.** The clock, the endpoints and the user's menu choices are parameters.
- The completion endpoint is an oracle `api` from the request to an answer or a thrown status.
- The Gemini model is an oracle `gemini` from the prompt to a text, or `None` when the call throws.

**The queue never combines messages.** `WhatsAppBot` declares a message-grouping queue with a wait of `MESSAGE_WAIT_TIME` (3000 ms) and a cap of `MAX_QUEUE_SIZE` (5) messages (src/bot/WhatsAppBot.ts:16-23). `addToMessageQueue` arms a timer to group a burst of messages from one sender (src/bot/WhatsAppBot.ts:219-234). That timer branch is never reached:
- Pushing a message onto an empty buffer gives it length 1, and `addToMessageQueue` then flushes it at once.
- The flush empties the buffer before anything can arrive.
- So a buffer is empty between messages and no timer is ever armed.

The model follows the code. `Bot.EnqueueFromIdle` proves that this idle state is kept. The `Idle()` clauses of the class methods carry it through every handler, and `Bot.NoBurstIsCombined` states the consequence.
`Bot.EnqueueRule` still states the general enqueue rule: a timer is armed for two to four buffered messages, and a flush happens at one or at five or more.

## Model

| member | source | states |
|---|---|---|
| Text.Trim | src/gpt/NvidiaGPTService.ts:48 | JavaScript `trim`: the result neither starts nor ends with whitespace, and it is empty exactly when the input is all whitespace |
| Text.TrimKeepsInner | src/gpt/NvidiaGPTService.ts:48 | the result of Trim is the input's own middle: it stands right after the input's leading whitespace, and only whitespace precedes and follows it |
| Text.TrimIdempotent | index.js:261-265 | trimming twice is trimming once (the cut of a reply re-trims a trimmed text) |
| Text.JoinSnoc | src/bot/WhatsAppBot.ts:252 | `join` of one element is that element; appending an element appends the separator and the element, so the parts appear in order |
| Text.JoinEmptyIff | src/bot/commands.ts:45-46 | with a non-empty separator the join is empty exactly for no element or one empty element |
| Text.Split | src/utils/index.ts:43 | `split(/\s+/)` yields at least one piece, no piece contains whitespace, and the first piece is the text up to its first whitespace |
| Text.SplitJoin | src/utils/index.ts:43 | joining the pieces with single spaces gives the input with every whitespace run collapsed to one space, so the pieces are the input's words in order and nothing else |
| Text.SplitKeepsText | src/utils/index.ts:43 | the pieces concatenate to the non-whitespace characters of the input, in order |
| Text.SplitTrimmedNonEmpty | src/utils/index.ts:43 | a non-empty trimmed text splits into non-empty pieces only |
| Text.DropSpacesOfTrim | src/utils/index.ts:43 | trimming removes only whitespace |
| Text.ToLower | src/utils/index.ts:44 | lower-casing keeps the length and maps each character on its own |
| Text.ToLowerKeepsNoSpace | src/utils/index.ts:44 | a lower-cased word still has no whitespace and is empty only if the word was |
| Text.LastIndexOf | index.js:267 | `lastIndexOf` of a character: -1 or an index holding it, with no occurrence after it |
| Utils.SanitizePhoneNumber | src/utils/index.ts:29-31 | the result consists of digits only and is no longer than the input |
| Utils.SanitizeAppend | src/utils/index.ts:29-31 | sanitising distributes over concatenation, so the input's digits keep their order |
| Utils.SanitizeKeepsDigits | src/utils/index.ts:29-31 | a digit string is left unchanged; one character is kept exactly when it is a digit |
| Utils.SanitizeIdempotent | src/utils/index.ts:29-31 | sanitising twice is sanitising once |
| Utils.FormatPhoneNumber | src/utils/index.ts:33-36 | the length is the sanitised length plus that of `@c.us` |
| Utils.FormatPhoneNumberShape | src/utils/index.ts:33-36 | digits followed by `@c.us`; the result contains `@`; formatting is idempotent |
| Utils.ParseCommand | src/utils/index.ts:38-48 | `None` exactly when the message does not start with the prefix; a blank rest gives command `""` with no arguments; the command and the arguments contain no whitespace |
| Utils.EmptyPrefixAlwaysCommand | src/utils/index.ts:39-41 | with the empty prefix every message is a command |
| Utils.ParseCommandTokens | src/utils/index.ts:43-47 | after a non-blank rest: the command and every argument are non-empty, and the command lower-cased followed by the arguments spell the rest's non-whitespace characters in order, the arguments with their case kept |
| Utils.ParseCommandWords | src/utils/index.ts:43-47 | the command is the first word of the trimmed rest, lower-cased; the arguments joined by single spaces are the text after that word with its whitespace runs collapsed to one space |
| Commands.AiExecute | src/bot/commands.ts:44-52 | the usage text exactly for no argument or one empty argument, otherwise the arguments joined by spaces |
| Commands.Registry | src/bot/WhatsAppBot.ts:75-80 | the registry's keys are the four handlers' names |
| Commands.RegistryKeepsEveryHandler | src/bot/commands.ts:3-53 | the names `ping`, `help`, `info`, `ai` are distinct, so each key maps to the handler of that name |
| Commands.FixedRepliesIgnoreInputs | src/bot/commands.ts:3-39 | `ping`, `help` and `info` return their fixed text whatever the message and arguments |
| Commands.HelpMentionsEveryCommand | src/bot/commands.ts:15-22 | the help text names every registered command with a hard-coded `!` |
| Gpt.SystemPrompt | src/gpt/NvidiaGPTService.ts:23 | the fixed preamble, followed by `Contexto: <context>` exactly when a non-empty context is given |
| Gpt.BuildRequest | src/gpt/NvidiaGPTService.ts:25-41 | the configured model, and exactly the system message and then the user's prompt |
| Gpt.ErrorMessage | src/gpt/NvidiaGPTService.ts:49-60 | status 401 exactly gives `API key inválida`, 429 exactly `Rate limit exceeded`, anything else `Service temporarily unavailable` |
| Gpt.GenerateResponse | src/gpt/NvidiaGPTService.ts:17-61 | the endpoint is called exactly when the key is configured, with BuildRequest; an unconfigured key fails with `Service temporarily unavailable`; every failure is one of the three errors; a success is trimmed; the outcome for each answer of the endpoint is given by GenerateResponseOutcome |
| Gpt.GenerateResponseOutcome | src/gpt/NvidiaGPTService.ts:43-59 | with a configured key, success exactly when the endpoint answers with a first choice that has a message; the reply is then the first choice's content trimmed, and a null content gives `""`; a thrown status goes through ErrorMessage; any other answer gives `Service temporarily unavailable` |
| Gpt.TestConnection | src/gpt/NvidiaGPTService.ts:67-74 | true exactly when generation from the test prompt resolves, so only with a configured key |
| Bot.UnknownCommandReplyMentions | src/bot/WhatsAppBot.ts:158-160 | the unknown-command reply names the command and `<prefix>help` |
| Bot.ToMessageData | src/bot/WhatsAppBot.ts:126-134 | the record keeps sender, body and own-flag, and the timestamp is in milliseconds |
| Bot.AIResponseUnconfigured | src/bot/WhatsAppBot.ts:263-269 | for AIResponseEffects, without a key: no endpoint call; the canned reply is sent once exactly when the prompt has no blank line; nothing else is sent |
| Bot.AIResponseConfigured | src/bot/WhatsAppBot.ts:271-291 | for AIResponseEffects, with a key: one endpoint call with the custom prompt or else the body; a reply exactly when generation succeeded with a non-empty text starting with neither `Error:` nor `Lo siento`; no reply on a generation error |
| Bot.BlankLineMessageUnanswered | src/bot/WhatsAppBot.ts:265-267 | for AIResponseEffects, without a key, a single message containing a blank line gets no reply at all |
| Bot.CommandDispatch | src/bot/WhatsAppBot.ts:155-201 | for CommandEffects: exactly one reply; an unknown keyword gets only the unknown-command reply; `ai` generates from the arguments joined by spaces instead of running its handler, and replies with the text or the fixed error; other commands reply with their handler's result and call no endpoint |
| Bot.EnqueueRule | src/bot/WhatsAppBot.ts:203-236 | for Enqueue: a timer is armed exactly when 1 to 3 messages were buffered, with the next handle, and the entry keeps the grown buffer with that timer; otherwise the buffer is flushed as one prompt, in arrival order, the new message last, and the entry is emptied with no timer; the sender's old timer is the one cancelled; the entry's time is `now`; other senders are untouched |
| Bot.EnqueueFromIdle | src/bot/WhatsAppBot.ts:219-229 | for Enqueue, from an idle queue: the prompt is the new message alone, no timer is armed or cancelled, and the queue stays idle |
| Bot.NoBurstIsCombined | src/bot/WhatsAppBot.ts:219-234 | for Enqueue: two messages in a row from one sender are flushed as two prompts and no timer is armed, whatever the time between them |
| Bot.Swept | src/bot/WhatsAppBot.ts:60-72 | the sweep keeps exactly the entries not older than ten minutes (strict comparison), and keeps them unchanged |
| Bot.SweptIdle | src/bot/WhatsAppBot.ts:64-70 | the sweep keeps an idle queue idle and cancels no timer |
| Bot.StatusConsistentKept | src/bot/WhatsAppBot.ts:83-115 | every lifecycle event keeps `ready` connected with no QR code, and `qr` with a code |
| Bot.SendError | src/bot/WhatsAppBot.ts:313-324 | the send is accepted exactly when the message is not blank, the recipient contains `@` and the client is connected; the checks come in that order, so a blank message gets the empty-message error, a non-blank one to a recipient without `@` the invalid-recipient error, and a valid one on a disconnected client the not-connected error |
| Bot.SendFollowsConnection | src/bot/WhatsAppBot.ts:91-108 | a valid send is accepted right after `ready` and refused right after `disconnected` and in the initial status |
| Bot.WhatsAppBot.constructor | src/bot/WhatsAppBot.ts:25-35 | the registry, the initial status `loading` and disconnected, an empty queue, no timer |
| Bot.WhatsAppBot.OnQr | src/bot/WhatsAppBot.ts:83-89 | stores the code, sets `qr`, emits the event |
| Bot.WhatsAppBot.OnReady | src/bot/WhatsAppBot.ts:91-97 | connected, `ready`, no code, emits the event |
| Bot.WhatsAppBot.OnAuthenticated | src/bot/WhatsAppBot.ts:99-103 | changes only the session status |
| Bot.WhatsAppBot.OnDisconnected | src/bot/WhatsAppBot.ts:105-115 | disconnected, emits the event, and schedules a reconnect only with auto-reconnect |
| Bot.WhatsAppBot.Initialize | src/bot/WhatsAppBot.ts:298-308 | `loading`, then `disconnected` and an error when the client fails to start |
| Bot.WhatsAppBot.GetStatus | src/bot/WhatsAppBot.ts:345-347 | a copy of the status |
| Bot.WhatsAppBot.HandleAIResponse | src/bot/WhatsAppBot.ts:261-296 | appends exactly the effects of the reply policy |
| Bot.WhatsAppBot.ProcessMessageQueue | src/bot/WhatsAppBot.ts:238-259 | a missing or empty entry changes nothing; otherwise the timer is cancelled, the buffer emptied and the entry kept, and the joined buffer goes to the reply policy |
| Bot.WhatsAppBot.PushMessage | src/bot/WhatsAppBot.ts:207-225 | the entry (created when missing) gets the message pushed and its time set, and its timer is cancelled |
| Bot.WhatsAppBot.AddToMessageQueue | src/bot/WhatsAppBot.ts:203-236 | the new queue, timers and effects are those of the enqueue rule; from an idle bot the message is answered alone and the bot stays idle |
| Bot.WhatsAppBot.HandleCommand | src/bot/WhatsAppBot.ts:155-201 | appends exactly the effects of command dispatch |
| Bot.WhatsAppBot.HandleMessage | src/bot/WhatsAppBot.ts:122-153 | a dropped message changes nothing; any other first emits `message`, then goes to command dispatch exactly when it parses as a command and to the queue otherwise; the idle invariant is kept |
| Bot.WhatsAppBot.Dispatch | src/bot/WhatsAppBot.ts:139-148 | a parsed command leaves the queue alone and dispatches; anything else is enqueued; the idle invariant is kept |
| Bot.WhatsAppBot.SweepQueues | src/bot/WhatsAppBot.ts:60-72 | the queue becomes its sweep and exactly the stale entries' timers are cancelled |
| Bot.WhatsAppBot.Destroy | src/bot/WhatsAppBot.ts:349-365 | every timer cancelled, the queue empty, and the status disconnected when the client shuts down |
| Bot.WhatsAppBot.SendMessage | src/bot/WhatsAppBot.ts:310-343 | an error exactly as SendError says and then nothing sent; otherwise the trimmed text is sent and the untrimmed one reported |
| Legacy.FirstActive | index.js:124 | `find(p => p.active)`: the first active index, or the length when none is active |
| Legacy.FindPhone | index.js:191 | the first index whose phone is the sender, or the length |
| Legacy.FindId | index.js:792 | `findIndex` by id: the first index with that id, or the length |
| Legacy.SelectActive | index.js:124 | `find(p => p.active) \|\| profiles[0]`: none only for no profiles; the first active profile when there is one; otherwise the first profile |
| Legacy.Deactivated | index.js:827 | every flag cleared, nothing else changed |
| Legacy.ActivateLeavesOneActive | index.js:827-830 | clearing every flag and setting one leaves exactly that profile active and changes nothing else |
| Legacy.DeleteKeepsOneActive | index.js:795-800 | deleting the active profile leaves none active until the new first one is set; deleting another keeps one active |
| Legacy.FindIdOfUnique | index.js:792 | with unique ids the profile at the menu position is the one found by its id |
| Legacy.PersonaChoice | index.js:191-192 | for ResolvePersona: the persona is the first profile with the sender's phone, else the active profile, else the selection of `loadData`; none only with no profiles and no active one |
| Legacy.ToneSwitch | index.js:209-228 | the five known tones get five different directives; every other tone, and only those, get the default |
| Legacy.InstructionCarriesPersona | index.js:235-244 | the instruction turn starts with the persona's instruction, has the tone directive right after it, and ends with the fixed rules |
| Legacy.Last | index.js:250 | `slice(-n)`: at most n elements, the input's last ones in order, all of them when the input fits |
| Legacy.First | index.js:383-385 | `slice(0, n)`: at most n elements, the input's first ones in order |
| Legacy.ContentsShape | index.js:231-257 | the instruction turn, then the last at most 10 memory entries in order, then the current message |
| Legacy.RememberShape | index.js:274-287 | the memory ends with the message and then the model's reply, never exceeds 40, and loses only its oldest entries |
| Legacy.NextRequestRecallsLastExchange | index.js:250-287 | the request after a reply shows the previous message and reply just before the new message |
| Legacy.RequestShape | index.js:194-202 | the fixed model and token limit, the persona's instruction as system instruction, and a contents list of the instruction turn, at most 10 remembered turns and the message |
| Legacy.TrimOfPrefix | index.js:265 | trimming a prefix of a trimmed text gives a prefix again |
| Legacy.TruncateBounds | index.js:261-271 | for Truncate: the reply is at most 80 long and a prefix of the trimmed answer; a fitting answer is kept whole; otherwise it is the trimmed first 80 characters or a prefix longer than 20 ending just before their last space |
| Legacy.FormatContactShape | index.js:930 | the stored form contains `@c.us`, extends the input, equals it exactly when the input contains `@c.us`, and is idempotent |
| Legacy.Without | index.js:967 | `filter(c => c !== x)`: exactly the other entries stay |
| Legacy.WithoutKeepsOrder | index.js:967 | filtering distributes over concatenation, so the others keep their order |
| Legacy.WithoutNoDuplicates | index.js:967 | filtering keeps a duplicate-free list duplicate-free |
| LegacyApp.RespondWithoutPersona | index.js:191-192 | without a persona: the fallback reply, no request, the memory unchanged |
| LegacyApp.RespondRequest | index.js:205-259 | with a persona: one request from the persona, the chat's memory and the message; the chat gets a memory entry and other chats are untouched |
| LegacyApp.RespondFailed | index.js:290-293 | a failed call returns `nel, algo salió mal xd` and leaves the memory unappended |
| LegacyApp.RespondAnswered | index.js:259-289 | a successful call returns the cut answer, at most 80 long, and remembers the message and that reply |
| LegacyApp.RespondKeepsMemoryBounded | index.js:284-287 | every chat's memory stays within 40 entries |
| LegacyApp.DeleteStaysConsistent | index.js:792-800 | deleting from a consistent list of two or more profiles keeps exactly one active profile, the active one, and unique ids |
| LegacyApp.LegacyBot.constructor | index.js:27-33 | the empty globals before `loadData` |
| LegacyApp.LegacyBot.LoadProfiles | index.js:92-128 | the stored profiles or the default one, then the selection of the active profile; the default list is consistent |
| LegacyApp.LegacyBot.GenerateAIResponse | index.js:189-294 | the reply, the memory and the model call are those of the reply generator for the resolved persona |
| LegacyApp.LegacyBot.StoreExchange | index.js:273-287 | the message and the reply are pushed onto the chat's memory, which keeps its newest 40 entries |
| LegacyApp.LegacyBot.OnMessage | index.js:334-396 | a blacklisted sender changes nothing; any other message goes to its chat's history, which keeps the newest 100; only private, foreign `chat` messages are answered; the answered exchange goes to the front of the log of 100; the bounds are kept |
| LegacyApp.LegacyBot.AnswerMessage | index.js:369-395 | the reply is generated; with an active profile the exchange is logged and the reply sent, without one the error reply is sent |
| LegacyApp.LegacyBot.RecordHistory | index.js:340-353 | the message is appended to its chat's history, which keeps its newest 100 entries |
| LegacyApp.LegacyBot.RecordExchange | index.js:381-385 | the entry goes to the front of the log, which keeps its newest 100 entries |
| LegacyApp.LegacyBot.DeactivateAll | index.js:691 | every flag cleared |
| LegacyApp.LegacyBot.CreateProfile | index.js:679-695 | the new profile is appended; when it is made active, every other flag is cleared and it is the one active profile; a fresh id keeps the profiles consistent |
| LegacyApp.LegacyBot.ActivateProfile | index.js:809-834 | every flag cleared and the first profile with the chosen id made active and selected; exactly one is active |
| LegacyApp.LegacyBot.DeleteProfile | index.js:764-807 | after confirmation the first profile with the chosen id is removed; when it was the active one and others remain, the new first profile becomes active; consistency is kept |
| LegacyApp.LegacyBot.AddToBlacklist | index.js:920-940 | the stored form is appended exactly when it is not already listed, so no duplicate appears |
| LegacyApp.LegacyBot.RemoveFromBlacklist | index.js:942-973 | after confirmation every occurrence of the chosen entry is dropped; no duplicate appears |

## Left out

- The WhatsApp transport is not modelled: the client, puppeteer, QR printing, `getChat`, `getContact` and the typing indicator. Replies, sends and emitted events are entries of a ghost effect log instead, and a failure of the transport is not modelled.
- The endpoints are oracles: the NVIDIA call and the Gemini call are not modelled. The Gemini oracle receives the `Prompt` that the request is built from, and `Legacy.BuildGeminiRequest` gives that request. Gemini's own limit of 50 output tokens and its temperature are not modelled.
- Timers, intervals and delays are left out. The clock is a `now` parameter. A timer is a handle from a counter, held in the ghost set of live timers. The scheduling itself and the firing of a timer are not modelled, and the firing would be `ProcessMessageQueue`. The 10-second wait of the JavaScript handler is not modelled.
- Asynchronous interleaving is left out: each handler is one sequential step.
- Persistence is left out: the `fs` load and save calls, `bot-status.json` and the pid check. `LoadProfiles` takes the stored profile list as a parameter, and the other stored files are not read.
- The CLI is left out: `commander`, `inquirer` and the menus. Menu choices are method parameters (a list position and a confirmation), and the ids and timestamps that come from the clock are parameters too.
- `editProfile`, `analyzeConversationStyle`, `analyzeStyle`, `broadcastMessage`, `listProfiles`, `listBlacklist`, `saveBotStatus` and `loadBotStatus` of `index.js` are not modelled, nor the client events of `initializeClient` other than the `message` handler. They are display, menu, status-file or transport code outside the modelled core.
- The web panel, `src/index.ts` and `src/config.ts` are not part of this model. `prefix` and `autoReconnect` are fields of the configuration parameter.
- The `Logger` and `sleep` of `src/utils/index.ts` are not part of this model.
- Text semantics are approximated. Whitespace is the ASCII subset of JavaScript's `\s`, and `toLowerCase` covers ASCII letters only. Lengths count code points, while JavaScript counts UTF-16 units, so `Legacy.Truncate` cuts a text with astral characters at a different place.
- Aliasing of profile objects is not modelled. `activeProfile` is a copy of a profile's value in the model, while in JavaScript it is the same object as an element of `profiles`. Its `id`, `name`, `systemInstruction`, `tone` and `customStyle` are read (index.js:191, 201, 210, 235, 378). Every modelled operation that changes a field of a profile, which is always its `active` flag, also re-points `activeProfile` to the profile it activates (index.js:690-692, 797-799, 827-830), so the copy and the referenced object agree. `editProfile` and `analyzeStyle`, which change other fields through the reference, are not modelled.
- LegacyApp.LegacyBot.OnMessage: one `timestamp` parameter stands for both `new Date()` readings of the handler.
- LegacyApp.LegacyBot.OnMessage: it does not model a throw of the transport calls inside the handler's `try`, which would also send the error reply.
- Bot.WhatsAppBot.HandleCommand: handlers of the registry do not throw, so the catch is reached only through a generation error.
