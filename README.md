# BotAI core, modelled in Dafny

BotAI connects WhatsApp accounts to configurable chat bots. This project
models the server-side core of that system and proves properties of the
model:

- **The reply engine** (`app/bot.server.ts`):
  - Message text is normalised, split into words and matched against each
    bot command's inputs with a fuzzy similarity score. A command matches
    when some word scores strictly above 0.8 against some normalised input.
  - The first matching command, in store order, is answered. The answer is
    either its static output or an AI reply.
  - AI replies are cached in Redis for 60 seconds under
    `cache:ai-response:<sessionId>:<commandId>`.
- **The bot-state monitor**: the fetched bot states are diffed against the
  previous tick's list, giving start and kill requests.
- **The lease-locked WhatsApp session and its registry**
  (`app/bots/whatsapp.server.ts`):
  - Before creating its client, a session takes the Redis key
    `lock:whatsapp-session:<id>` with `SET … EX … NX`.
  - It gives the key back in the `finally` of `initialize`, when the key
    still holds its own token.
  - While renewal runs, the TTL is reset once a minute.
- **The older lock-free session** (`app/bot/whatsapp.server.ts`): it has a
  built-in "Oi" → "Olá!" auto-reply, and its registry overwrites on every
  create.
- **The MongoDB credential store for WhatsApp sessions.** The three copies
  are `app/extensions/mongodb-auth-state.ts`,
  `app/extensions/use-mongodb-auth-state.ts` and
  `app/extension/use-mongodb-auth-state.ts`. The model covers:
  - the root credentials record `creds-<sid>`;
  - signal keys `<category>-<id>-<sid>`;
  - `keys.get`, `keys.set`, `saveCreds` and `removeCreds`.
- **The tag-list handlers of the two bot-command forms**, and how their
  hidden field is split on the server.
- **Small helpers**:
  - the `singleton` memo on the process-global object;
  - `defaultMeta`;
  - the socket event paths.

How the pieces are modelled:

- **External services are parameters.**
  - The string-similarity score is a function `(string, string) -> real`.
  - The AI completion call is a function `(string, string) -> string`.
  - The session-enabled lookup is `string -> Option<bool>`.
  - The WhatsApp client's start-up is a `started: bool` outcome.
  - The lock token (`uuid.v6()`) is a parameter.
  - `initAuthCreds()` is an initial document.
  - `process.env.APP_DOMAIN` is an optional string.
- **Redis** is a class holding `map<string, Entry>`. It offers GET, SET EX,
  SET EX NX, EXPIRE and DEL. A key whose TTL runs out is the explicit step
  `Lapse`.
- **MongoDB** is a class holding collections of documents keyed by `_id`.
- **JavaScript values:**
  - `null` and `undefined` are `None`;
  - truthiness of strings and the template-literal forms (`"null"`,
    `"undefined"`) are written out;
  - `Array.prototype.splice` index clamping is written out.
- **The renewal interval** is a `RenewTick` method, called once per firing.
- **Split at its awaits:** `WhatsAppSession.initialize` is
  `BeginInitialize` (token, SET NX, new client) followed by
  `FinishInitialize` (start-up outcome, handlers, renewal, lock release).
  This lets the scenario methods state what happens when another server
  writes the key in between.

Modules, one file each:

| module | file |
|---|---|
| `Wrappers` | `wrappers.dfy` |
| `Strings` | `strings.dfy` |
| `Redis` | `redis.dfy` |
| `TextNormalize` | `normalize.dfy` |
| `Prompts` | `prompts.dfy` |
| `BotEngine` | `bot_engine.dfy` |
| `BotStates` | `bot_states.dfy` |
| `WhatsAppClient` | `whatsapp_client.dfy` |
| `WhatsAppSessions` | `whatsapp_sessions.dfy` |
| `LegacyWhatsApp` | `legacy_whatsapp.dfy` |
| `AuthState` | `auth_state.dfy` |
| `TagList` | `tag_list.dfy` |
| `Singleton` | `singleton.dfy` |
| `DefaultMeta` | `default_meta.dfy` |
| `SocketEvents` | `socket_events.dfy` |

The three credential-store copies behave the same on every path the model
covers, so they share one `AuthState.Adapter`. They differ only in whether
`removeCreds` exists. Each copy has its own factory method. The lines the
shared members model in the two `useMongoDBAuthState` copies are:

| operation | app/extensions/use-mongodb-auth-state.ts | app/extension/use-mongodb-auth-state.ts |
|---|---|---|
| `ensureCollectionExists` | 50-57 | 44-51 |
| `writeData` | 68-74 | 55-61 |
| `readData` | 83-87 | 63-67 |
| `removeData` | 95-97 | 69-71 |
| `keys.get` | 106-120 | 80-95 |
| `keys.set` | 121-134 | 96-109 |
| `saveCreds` | 137-139 | 112-114 |

The two forms share their tag handlers verbatim. In
`app/components/forms/BotCommandForm.tsx` they sit at 37-66.

`LOCK_INTERVAL` (app/bots/whatsapp.server.ts:10) is written as two minutes
in milliseconds, 120000. It is passed to Redis as seconds, both to `EX` and
to `EXPIRE`. The model keeps the number 120000 and passes it wherever the
source does.

## Model

| member | source | states |
|---|---|---|
| Strings.Split | app/bot.server.ts:123 | `split` on one character gives at least one piece, no piece contains the separator, and a single piece is the whole string unless the separator occurs |
| Strings.SplitJoin | app/routes/dashboard.tsx:100-102 | splitting a comma-joined list of comma-free parts gives the parts back |
| Strings.JoinSplit | app/routes/dashboard.tsx:100-102 | joining the pieces of a split with the separator gives the string back |
| Strings.Occurs | app/bot/whatsapp.server.ts:115 | the scanning `includes` is true exactly when the pattern occurs at some position |
| Redis.Store.Get | app/bots/whatsapp.server.ts:109 | GET gives the stored value, and null exactly for an absent key |
| Redis.Store.SetEx | app/bot.server.ts:191 | SET EX stores the value with the TTL and changes no other key |
| Redis.Store.SetExNx | app/bots/whatsapp.server.ts:68-74 | SET EX NX answers OK exactly when the key was absent, writes only then, and changes nothing otherwise |
| Redis.Store.Expire | app/bots/whatsapp.server.ts:196 | EXPIRE resets the TTL of an existing key and keeps its value; a missing key is left missing |
| Redis.Store.Del | app/bots/whatsapp.server.ts:111 | DEL removes exactly that key and counts 1 when it existed, else 0 |
| Redis.Store.Lapse | app/bots/whatsapp.server.ts:68-74 | a key set with a TTL disappears when it runs out; a key without TTL stays |
| TextNormalize.ToLower | app/bot.server.ts:115 | `toLowerCase` maps every character on its own and keeps the length |
| TextNormalize.KeepIf | app/bot.server.ts:117-118 | a global `replace` of a character class by "" keeps only characters outside the class, never lengthening the text |
| TextNormalize.DropSpaces | app/bot.server.ts:120 | the leading-trim result is a suffix, everything dropped is white space, and it does not start with white space |
| TextNormalize.DropTrailingSpaces | app/bot.server.ts:120 | the trailing-trim result is a prefix, everything dropped is white space, and it does not end with white space |
| TextNormalize.CollapseShape | app/bot.server.ts:119 | after `replace(/\s+/g, " ")` on word characters and white space, no two spaces are adjacent |
| TextNormalize.TrimShape | app/bot.server.ts:120 | trimming a single-spaced text of allowed characters leaves no space at either end |
| TextNormalize.NormalizeInNormalForm | app/bot.server.ts:113-120 | `normalize` output holds only `[a-z0-9_]` and single inner spaces, with none leading or trailing |
| TextNormalize.NormalFormFixed | app/bot.server.ts:113-120 | a text already in that form passes `normalize` unchanged |
| TextNormalize.NormalizeIdempotent | app/bot.server.ts:113-120 | normalising twice equals normalising once |
| BotEngine.MaxScore | app/bot.server.ts:134 | `Math.max(...)` of no scores is −∞ (None); otherwise it is one of the scores and at least every score |
| BotEngine.Scores | app/bot.server.ts:130-132 | one similarity per normalised input, in order |
| BotEngine.MaxScoreAbove | app/bot.server.ts:134 | the maximum exceeds a threshold exactly when some score does |
| BotEngine.WordMatchesIff | app/bot.server.ts:129-135 | a word matches exactly when it scores strictly above 0.8 against some input |
| BotEngine.SomeWordMatchesIff | app/bot.server.ts:129 | `words.some` holds exactly when some word matches |
| BotEngine.MapStringsAt | app/bot.server.ts:128 | `inputs.map(normalize)` holds at position j the normal form of input j |
| BotEngine.CommandMatchesIff | app/bot.server.ts:128-135 | a command matches exactly when some (word, normalised input) pair scores strictly above 0.8 |
| BotEngine.EmptyInputsNeverMatch | app/bot.server.ts:134 | a command without inputs never matches |
| BotEngine.ThresholdIsStrict | app/bot.server.ts:134 | a best score of exactly 0.8 does not match; 0.81 does |
| BotEngine.MessageWords | app/bot.server.ts:122-123 | the split of the normalised message always has at least one word |
| BotEngine.FirstMatch | app/bot.server.ts:126-141 | the loop returns the first index that satisfies the test, and None only when no element does |
| BotEngine.FindCommand | app/bot.server.ts:126-141 | the handled command matches and no earlier one does; with no match none matches at all |
| BotEngine.GetAiResponse | app/bot.server.ts:172-195 | a non-empty cached reply is returned without asking and nothing is written; a miss asks with the system prompt and the prompt, and stores a non-empty answer for 60 s under a key made only of session and command |
| BotEngine.HandleBotResponse | app/bot.server.ts:145-170 | the reply and store change of `RepliedFor`: at most one send. With AI: a cached non-empty reply is sent without asking; on a miss the service is asked with promptAi + " " + output (or the output alone when promptAi is empty), and a non-empty answer is sent and cached, an empty one neither. Without AI: nothing is asked or stored, and the output is sent exactly when it is non-empty |
| BotEngine.SendBotMessage | app/bot.server.ts:108-143 | the first matching command is the one handled, and its send, AI request and cache change are exactly those of `RepliedFor` for it; when nothing matches nothing is sent, the AI is not asked, and Redis is unchanged |
| BotEngine.StaticReplyIsSent | app/bot.server.ts:108-170 | a message matching a first, static command with a non-empty output is answered with that output alone; the AI is not asked and Redis is unchanged |
| BotEngine.CachedReplyIsReused | app/bot.server.ts:178-187 | a second AI request for the same session and command returns the first reply without asking, even for another prompt and message |
| BotStates.Find | app/bot.server.ts:31 | `find` gives None exactly when no bot has the id, else the first bot with it |
| BotStates.Filter | app/bot.server.ts:22 | `filter` keeps exactly the bots satisfying the test, each as often as in the input, and no others |
| BotStates.Created | app/bot.server.ts:22 | created bots are the current bots whose id the previous list lacks |
| BotStates.Deleted | app/bot.server.ts:26 | deleted bots are the previous bots whose id the current list lacks |
| BotStates.Updated | app/bot.server.ts:30-37 | updated bots are current bots whose previous namesake differs in status or session |
| BotStates.UpdateActions | app/bot.server.ts:39-47 | an updated bot issues a kill of its session exactly when that session exists and is disabled, and a start exactly when it is offline; both can fire |
| BotStates.StartAll | app/bot.server.ts:23 | a start is issued for every created bot and nothing else |
| BotStates.KillAll | app/bot.server.ts:27 | a kill is issued for the id of every deleted bot and nothing else |
| BotStates.UpdateAll | app/bot.server.ts:39-47 | an action is issued exactly when some updated bot issues it |
| BotStates.CreatedDeletedIds | app/bot.server.ts:18-26 | created ids are current minus previous, deleted ids are previous minus current, and the two are disjoint |
| BotStates.StartIff | app/bot.server.ts:17-47 | a bot is started exactly when it is new, or updated and offline |
| BotStates.KillFromUpdates | app/bot.server.ts:39-43 | an update issues a kill of a session exactly when that session is disabled and some updated bot uses it |
| BotStates.KillIff | app/bot.server.ts:17-47 | a kill target is a deleted bot's id or a disabled session of an updated bot, and nothing else |
| BotStates.UnchangedBotIsLeftAlone | app/bot.server.ts:30-37 | a bot with unchanged status and session is neither created nor updated, and is not started |
| BotStates.SameListNoActions | app/bot.server.ts:17-48 | comparing a uniquely keyed list with itself issues nothing |
| BotStates.BotMonitor.constructor | app/bot.server.ts:15 | the kept list starts empty |
| BotStates.BotMonitor.MonitorBotStates | app/bot.server.ts:50-58 | on a successful fetch the diff is issued and the fetched list is kept; on error nothing is issued and the kept list stays |
| BotStates.FirstTickStartsAll | app/bot.server.ts:15-58 | the first tick starts every fetched bot and kills nothing |
| WhatsAppSessions.LockKeyInjective | app/bots/whatsapp.server.ts:9 | lock keys of different sessions differ |
| WhatsAppSessions.WhatsAppSession.constructor | app/bots/whatsapp.server.ts:18-26 | a new session is uninitialised, holds no QR, lock value or client, and does not renew |
| WhatsAppSessions.WhatsAppSession.GetQrCode | app/bots/whatsapp.server.ts:128-130 | gives the latest stored QR payload |
| WhatsAppSessions.WhatsAppSession.BeginInitialize | app/bots/whatsapp.server.ts:65-95 | keeps the fresh token; when the lock key exists it throws the contention error, leaves Redis alone and creates no client; otherwise it sets the key to the token with TTL 120000 and creates a new client |
| WhatsAppSessions.WhatsAppSession.RegisterEventHandlers | app/bots/whatsapp.server.ts:208-243 | attaches listeners only when initialised and a client exists |
| WhatsAppSessions.WhatsAppSession.FinishInitialize | app/bots/whatsapp.server.ts:97-113 | initialised only when start-up resolved, and then with listeners and renewal; either way the lock key is deleted exactly when it still holds this session's token |
| WhatsAppSessions.WhatsAppSession.Initialize | app/bots/whatsapp.server.ts:65-114 | succeeds exactly when the lock key was absent; Redis ends as it started; contention changes no client state; success makes one new client, initialised and renewing exactly when start-up resolved |
| WhatsAppSessions.WhatsAppSession.RenewTick | app/bots/whatsapp.server.ts:187-202 | while renewing, a key holding the token gets TTL 120000 again; anything else stops renewal; no value is written and no key is added or deleted |
| WhatsAppSessions.WhatsAppSession.KillClient | app/bots/whatsapp.server.ts:166-174 | a no-op before initialisation; afterwards it destroys the client and stops renewal, while `initialized` stays true |
| WhatsAppSessions.WhatsAppSession.RestartClient | app/bots/whatsapp.server.ts:144-160 | a no-op before initialisation; afterwards a new listening client replaces the destroyed one, and renewal is not restarted |
| WhatsAppSessions.WhatsAppSession.OnQr | app/bots/whatsapp.server.ts:213-222 | the payload is stored before the callback runs, so `getQrCode()` is the payload the callback sees |
| WhatsAppSessions.Events | app/bots/whatsapp.server.ts:224-242 | the ready, disconnected and message listeners notify the owner once each, with the message itself, exactly when the client is live and listening, and not at all otherwise |
| WhatsAppSessions.EventsAfterInitialize | app/bots/whatsapp.server.ts:64-113 | a new session passes its client's events on exactly when `initialize` took the lock and the client started; a lost lock or a failed start-up leaves it deaf |
| WhatsAppSessions.EventsAfterKillAndRestart | app/bots/whatsapp.server.ts:144-175 | after `killClient` no event reaches the owner; after `restartClient` every event does again |
| WhatsAppSessions.WhatsAppManager.constructor | app/bots/whatsapp.server.ts:250-254 | the registry starts empty |
| WhatsAppSessions.WhatsAppManager.CreateClient | app/bots/whatsapp.server.ts:265-292 | a registered id throws "already exists" and changes nothing; otherwise the session is filed under its id only when `initialize` returned, so lock contention leaves the registry as it was |
| WhatsAppSessions.CreateTwiceRefused | app/bots/whatsapp.server.ts:265-301 | a second `createClient` for an id already filed gives the "already exists" error, and `getClient` still gives the first session |
| WhatsAppSessions.Contention | app/bots/whatsapp.server.ts:65-114 | a second server starting the session while the first holds the lock is refused and makes no client, and the first then releases the key |
| WhatsAppSessions.LapsedLockIsNotReleased | app/bots/whatsapp.server.ts:108-113 | when the lock lapsed and another server took it, the first server's `finally` leaves the other's key in place |
| WhatsAppSessions.RenewalStopsAtFirstTick | app/bots/whatsapp.server.ts:187-202 | because `initialize` releases the lock, the first renewal tick of a started session finds no key and stops renewal |
| LegacyWhatsApp.LegacySession.constructor | app/bot/whatsapp.server.ts:6-26 | a new session is uninitialised, with no QR and no client |
| LegacyWhatsApp.LegacySession.GetQrCode | app/bot/whatsapp.server.ts:58-60 | gives the latest stored QR payload |
| LegacyWhatsApp.LegacySession.RegisterEventHandlers | app/bot/whatsapp.server.ts:92-95 | attaches listeners only when initialised |
| LegacyWhatsApp.LegacySession.Initialize | app/bot/whatsapp.server.ts:28-52 | always makes a new client; initialised and listening only when start-up resolved; a failure is swallowed |
| LegacyWhatsApp.LegacySession.KillClient | app/bot/whatsapp.server.ts:84-90 | a no-op before initialisation; afterwards it destroys the client, and `initialized` stays true |
| LegacyWhatsApp.LegacySession.RestartClient | app/bot/whatsapp.server.ts:66-82 | a no-op before initialisation; afterwards a new listening client replaces the old one |
| LegacyWhatsApp.LegacySession.OnQr | app/bot/whatsapp.server.ts:97-105 | each payload overwrites the stored one before the callback runs |
| LegacyWhatsApp.LegacyEventsFollowLifecycle | app/bot/whatsapp.server.ts:28-118 | the ready notification passes exactly when the client started; after `killClient` neither ready nor the greeting reply passes |
| LegacyWhatsApp.LegacySession.OnMessage | app/bot/whatsapp.server.ts:114-118 | a body containing "Oi" (case-sensitive) gets exactly one "Olá!" to its sender; any other gets none |
| LegacyWhatsApp.LegacyManager.constructor | app/bot/whatsapp.server.ts:123-127 | the registry starts empty |
| LegacyWhatsApp.LegacyManager.CreateClient | app/bot/whatsapp.server.ts:129-141 | no duplicate check: the new session replaces any entry under the id, whatever its start-up outcome |
| LegacyWhatsApp.LegacyManager.GetClient | app/bot/whatsapp.server.ts:143-145 | gives the session filed under the id, undefined when none |
| LegacyWhatsApp.CreateTwice | app/bot/whatsapp.server.ts:129-141 | creating the same id twice leaves only the second session registered |
| LegacyWhatsApp.GreetingReplies | app/bot/whatsapp.server.ts:114-118 | "Oi, tudo bem?" is answered; "Bom dia" and "oi" are not |
| LegacyWhatsApp.NoLeadNoMatch | app/bot/whatsapp.server.ts:115 | a text lacking the pattern's first character does not contain it |
| AuthState.SignalKeyNeverRoot | app/extensions/mongodb-auth-state.ts:144 | within a session no signal key equals the root key `creds-<sid>` |
| AuthState.SignalKeyAmbiguous | app/extensions/mongodb-auth-state.ts:144 | the signal key is not one-to-one in (category, id): ("a-b", "c") and ("a", "b-c") share a key |
| AuthState.Apply | app/extensions/mongodb-auth-state.ts:145 | one `keys.set` task upserts a truthy value, deletes on a falsy one, and leaves every other key as is |
| AuthState.Lookup | app/extensions/mongodb-auth-state.ts:85-89 | `findOne` gives the document for a present id, null for an absent one |
| AuthState.LastWrite | app/extensions/mongodb-auth-state.ts:140-146 | the last write to a key in a batch, and None exactly when no write names it |
| AuthState.LastWriteWins | app/extensions/mongodb-auth-state.ts:137-150 | after a batch a key holds its last write's outcome, and an unmentioned key is unchanged |
| AuthState.Entries | app/extensions/mongodb-auth-state.ts:141-145 | the inner loop writes one (signal key, value) per id, in order |
| AuthState.FlattenMember | app/extensions/mongodb-auth-state.ts:140-146 | the batch holds exactly one write per (category, id) entry of the data |
| AuthState.KeysSetKeepsRoot | app/extensions/mongodb-auth-state.ts:137-150 | `keys.set` never changes the root credentials record |
| AuthState.Database.constructor | app/extensions/mongodb-auth-state.ts:44 | the database holds the given collections |
| AuthState.Database.EnsureCollectionExists | app/extensions/mongodb-auth-state.ts:52-59 | creates an empty collection only when none has that name |
| AuthState.EnsureCollectionTwice | app/extensions/mongodb-auth-state.ts:52-61 | a second `ensureCollectionExists` changes nothing |
| AuthState.Adapter.constructor | app/extensions/mongodb-auth-state.ts:43-45 | the adapter is bound to its database, collection and session |
| AuthState.Adapter.ReadData | app/extensions/mongodb-auth-state.ts:85-89 | gives the stored document, null when absent |
| AuthState.Adapter.WriteData | app/extensions/mongodb-auth-state.ts:70-76 | an upsert: reading the key back gives the data, and every other key reads as before |
| AuthState.Adapter.RemoveData | app/extensions/mongodb-auth-state.ts:97-99 | after `deleteOne` the key reads null, and every other key reads as before |
| AuthState.Adapter.KeysGet | app/extensions/mongodb-auth-state.ts:116-130 | one entry per requested id, holding that signal key's stored value or null |
| AuthState.Adapter.SetEntry | app/extensions/mongodb-auth-state.ts:145 | one task applies its write to this collection only |
| AuthState.Adapter.KeysSet | app/extensions/mongodb-auth-state.ts:137-150 | the collection ends as the batch of one write per (category, id) applied in order; other collections are untouched |
| AuthState.Adapter.SaveCreds | app/extensions/mongodb-auth-state.ts:158-160 | the held creds overwrite the root record; other keys are kept |
| AuthState.Adapter.RemoveCreds | app/extensions/mongodb-auth-state.ts:166-168 | the root record is gone afterwards; other keys are kept |
| AuthState.Open | app/extensions/mongodb-auth-state.ts:52-103 | the collection is ensured, and the creds are the stored root record or, when there is none, the fresh `initAuthCreds()` |
| AuthState.MongodbAuthState | app/extensions/mongodb-auth-state.ts:102-103 | `mongodbAuthState` opens the adapter with `removeCreds` and falls back to fresh creds |
| AuthState.UseMongoDBAuthState | app/extensions/use-mongodb-auth-state.ts:99-100 | this copy opens the adapter without `removeCreds` and falls back to fresh creds |
| AuthState.LegacyUseMongoDBAuthState | app/extension/use-mongodb-auth-state.ts:73-74 | the older copy opens the adapter without `removeCreds` and falls back to fresh creds |
| AuthState.SaveThenRemove | app/extensions/mongodb-auth-state.ts:158-168 | saved creds are what the next adapter starts from; after `removeCreds` the next adapter starts from fresh creds |
| TagList.HandleDelete | app/components/forms/BotCommandModalForm.tsx:36-38 | removes exactly position i and keeps the rest in order; an out-of-range i changes nothing |
| TagList.HandleAddition | app/components/forms/BotCommandModalForm.tsx:46-48 | appends the tag, one longer, with the old list as prefix |
| TagList.OnClearAll | app/components/forms/BotCommandModalForm.tsx:63-65 | the list becomes empty |
| TagList.SpliceStart | app/components/forms/BotCommandModalForm.tsx:42 | `splice` counts a negative start from the end and clamps it to [0, length] |
| TagList.Splice | app/components/forms/BotCommandModalForm.tsx:42 | `splice` replaces the clamped range with the items; a start past the end appends |
| TagList.OnInputUpdate | app/components/forms/BotCommandModalForm.tsx:40-44 | in range position i is replaced and the length kept; past the end the tag is appended; a negative index counts from the end, and on an empty list it appends |
| TagList.HandleDrag | app/components/forms/BotCommandModalForm.tsx:50-61 | for valid positions the length is kept, the tag lands at the new position, and taking it out gives the list without the old position; dragging the tag that is at the current position permutes the list |
| TagList.RemoveAt | app/components/forms/BotCommandModalForm.tsx:57 | taking out one position removes one copy of that tag |
| TagList.InsertAt | app/components/forms/BotCommandModalForm.tsx:58 | inserting puts the tag at the position and adds one copy of it |
| TagList.Texts | app/components/forms/BotCommandModalForm.tsx:125 | the texts of the tags, in order |
| TagList.InitialTags | app/components/forms/BotCommandForm.tsx:31-35 | one `{id: s, text: s}` per input, in order, or none when there are no inputs |
| TagList.HiddenFieldRoundTrip | app/components/forms/BotCommandModalForm.tsx:125 | the server's comma split of the hidden field gives the tag texts back, when there is a tag and no text has a comma |
| TagList.NoTagsSubmitOneEmptyInput | app/components/forms/BotCommandModalForm.tsx:125 | an empty tag list submits one empty input |
| TagList.OpenedInputsRoundTrip | app/components/forms/BotCommandModalForm.tsx:67-76 | tags reset from the command's inputs on open are submitted as those inputs again |
| TagList.ModalForm.constructor | app/components/forms/BotCommandModalForm.tsx:33-34 | the form starts with the given AI flag and no tags |
| TagList.ModalForm.OnOpen | app/components/forms/BotCommandModalForm.tsx:67-76 | on open the AI flag defaults to false and the tags are reset from the inputs; a closed dialog is left alone |
| Singleton.Globals.constructor | app/singleton.server.ts:14 | the global object starts without a registry |
| Singleton.Globals.Stored | app/singleton.server.ts:16 | a stored value is a present entry of an existing registry |
| Singleton.Globals.Get | app/singleton.server.ts:9-18 | the registry exists afterwards; the factory runs exactly when the stored value is absent or nullish; a non-nullish stored value is returned as is; only this name's entry can change |
| Singleton.CallTwice | app/singleton.server.ts:16-17 | a second call returns the first value without the factory, unless that value was nullish, when the factory runs again; other names keep their entries |
| DefaultMeta.GetCanonicalLink | app/utils/default-meta.ts:11-17 | a canonical link tag whose href starts with `https://` and ends with the path |
| DefaultMeta.DefaultMetaAsWritten | app/utils/default-meta.ts:3-9 | exactly three entries: the title as written, the fixed description, the canonical link |
| DefaultMeta.TitleInverted | app/utils/default-meta.ts:5 | as written, the "Login" page is titled "BotAI" and a page without a name "BotAI &#124; undefined" |
| DefaultMeta.DefaultMeta | app/utils/default-meta.ts:3-9 | exactly three entries: the corrected title, the fixed description, the canonical link |
| DefaultMeta.PageTitleShowsName | app/utils/default-meta.ts:5 | corrected: a named page is titled "BotAI &#124; " then its name; an unnamed one just "BotAI" |
| DefaultMeta.OnlyTitleDependsOnPage | app/utils/default-meta.ts:6-7 | the description is "Bem-vindo ao BotAI" and the link does not depend on the page name |
| SocketEvents.EventsInjective | app/constants/events.ts:6-23 | each event path determines its session id |
| SocketEvents.EventsDisjoint | app/constants/events.ts:6-23 | no receive path is a send path, and no chat path is a QR path, whatever the ids |

## Left out

- I/O, logging and asynchrony are left out. Every `await` runs to completion in program order. `Promise.all` in `keys.get` and `keys.set` is sequential.
  - The `forEach(async …)` of `compareBotStates` issues its requests in list order. The model does not capture their interleaving.
  - The race between the duplicate check and the insert of `createClient` is not explored.
- Timers are left out. The `setInterval` of the lock renewal is the `RenewTick` method, and the bot-state monitor's interval is the `MonitorBotStates` method. Redis TTL expiry is the explicit `Lapse` step, not elapsed time.
- WhatsAppSessions.WhatsAppSession: `renewing` is one flag. A second successful `initialize` would start a second interval, and killing clears only the last one; this leak is not modelled.
- WhatsAppSessions.WhatsAppSession.RegisterEventHandlers: re-registering listeners on the same client (which adds duplicates in the source) is the single `listening` flag.
- TextNormalize.ToLower: covers ASCII and Latin-1 letters only. Other scripts' case mappings, and special cases such as 'İ', are not modelled.
- TextNormalize.Decompose: decomposes only the Latin-1 lower-case letters. Other characters' canonical decompositions (Unicode Standard Annex #15) are not modelled.
- The string-similarity library (`compareTwoStrings`) is not modelled. It is an arbitrary function, so nothing about its values is assumed.
- `askAI`'s call into OpenAI is a function of the full prompt and the message, and the model does not capture failures. It is called with two arguments against its one-parameter definition; the model does not reconcile this.
- `startBot`, `killBot` and `stopBots` are the abstract actions `StartBot` and `KillBot`. They call a manager API (a seven-argument `createClient`, `killClient`, `getClients`, `getBotId`) unlike the one in `app/bots/whatsapp.server.ts`. The process signal handlers of `app/bot.server.ts` are left out.
- The whatsapp-web.js client is reduced to a handle with `listening` and `destroyed` flags. The Puppeteer and RemoteAuth options, the MongoStore backup, `mongodb()` connection failures and the `qrcode-terminal` printing in the older session are not modelled.
- AuthState.Adapter.ReadData: gives the stored document. The source's `findOne` result also carries its `_id` field, which the model drops.
- AuthState.Adapter: `BufferJSON` replacer/reviver and `WAProto.Message.AppStateSyncKeyData.fromObject` are taken as exact round-trips. `keys.set` treats only null and undefined as falsy; other falsy values (`0`, `""`, `false`) are not distinguished.
- TagList.HiddenFieldRoundTrip: stops at the comma split. The `trim` that `app/routes/dashboard.tsx:102` applies to each piece is not modelled.
- React state and rendering are left out. `setInputs` is the returned list, `useEffect` is `ModalForm.OnOpen`, and the rest of both forms is markup.
- Singleton.Globals.Get: the factory is its result `made`. Side effects of `valueFactory` are not modelled, and object identity is value equality.
- Singleton.Globals.Get: the registry is a map with no inherited keys. In the source it is a plain `{}`. For a name that `Object.prototype` supplies ("toString", "constructor", …), `??=` finds the inherited function, so the factory is not called and that function is returned, while the model calls the factory. The only caller passes "db".
- WhatsAppSessions.WhatsAppManager.CreateClient: `this.sessions` is a plain `{}` in the source too. An id such as "constructor" reads as already filed and is refused with "already exists", while the model files the session. The same goes for WhatsAppSessions.WhatsAppManager.GetClient and LegacyWhatsApp.LegacyManager.GetClient, which return the inherited member instead of undefined. Session ids are generated bot ids.

## Findings

| source | as written | input that shows it | evidently intended | confidence | as-written member | corrected member |
|---|---|---|---|---|---|---|
| app/utils/default-meta.ts:5 | the title ternary yields `APP_NAME` when `pageName` is truthy and `APP_NAME` + " &#124; " + `pageName` when it is not, so a named page gets the bare application name and an unnamed one gets "BotAI &#124; undefined" | `defaultMeta("Login", "/login")` gives the title "BotAI"; `defaultMeta()` gives "BotAI &#124; undefined" (lemma DefaultMeta.TitleInverted; the fix is proved in DefaultMeta.PageTitleShowsName) | "BotAI &#124; Login" for a named page, "BotAI" alone without one | high; not executed | DefaultMeta.DefaultMetaAsWritten | DefaultMeta.DefaultMeta |
