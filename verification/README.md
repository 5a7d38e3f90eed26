# koishi-plugin-qz-siliconflow, modelled in Dafny

This project models the conversation and quota bookkeeping of the Koishi
plugin `qz-siliconflow`. The plugin relays group-chat messages to an
OpenAI-style chat-completions API. The model covers:

- the per-group conversation handle (`ChatBot`): its history, whose element 0
  is the system prompt, and the trimming of that history;
- how an HTTP reply becomes the plugin's response record;
- the registry that finds, restores, creates and persists conversations. Its
  two variants are the guild-keyed `ChatBot.getBot` and the channel-keyed
  `ChatBotUtils.getBot`;
- system-prompt selection and templating;
- the rewrite of every cached conversation when the configuration changes;
- the per-user quota ledger and its record back-filling;
- the affection levels and the poke conversation;
- the `chat`, `chatnh` and `chat-clear` commands and the message-collecting
  middleware.

Everything is a pure function over immutable values. A conversation is a
`Bot` value, and the in-memory cache is a `map<string, Bot>`. The `channel`
table is a map from (id, platform) to a stored history, and the
`qz_siliconflow` table is a map from user id to a row. An operation returns
the new state next to its result.

JavaScript behaviour that the code relies on is written out in `JsStrings`:

- `trim`, and truthiness of possibly-missing strings (`||`, `??`);
- `String(undefined)`;
- `replace` with a string pattern, which changes only the first occurrence;
- `replaceAll`, including the `$`-patterns of the replacement;
- number-to-text conversion;
- indexing an array with a string.

Files:

| file | module | models |
|---|---|---|
| wrappers.dfy | Wrappers | `Option`, `Result` |
| js_strings.dfy | JsStrings | the JavaScript string built-ins listed above |
| chat_history.dfy | ChatHistory | the `ChatBot` instance: constructor, system prompt, append, collate, clear |
| completion.dfy | Completion | `_handleResponse` and the transport fallback of `_sendApiRequest` |
| plugin_config.dfy | PluginConfig | the `Config` type and the defaults of its schema |
| config_service.dfy | ConfigService | `getSystemPrompt`, `replaceMarket`, `onConfigChange` |
| session_registry.dfy | SessionRegistry | `getBot`, `tryRestoreFromDB`, `createNewBot`, `configureSystemPrompt`, `replaceSystemPrompt` of both chatBot.ts and utils.ts |
| token_service.dfy | TokenService | the quota ledger |
| database_utils.dfy | DataBaseUtils | the back-filling `getUser` |
| favorable_system.dfy | FavorableSystem | affection levels, `replacePrompt`, `configUpdate`, `createAiBot` |
| koishi_chat.dfy | KoishiChat | the three commands and `collectMessage` |
| plugin_events.dfy | PluginEvents | the `config` event handler |

## Behaviour of the code worth knowing

- **Trimming.** The comments in `collateHistory` (src/siliconFlow/chatBot.ts:96
  and :100) speak of a system prompt plus 17 messages and of deleting
  messages 1 to 3. The slice at :101 starts at `-maxHistory - 3`, so it
  keeps element 0 and the last `maxHistory + 3` messages. The model
  follows the slice. The consequences are proved:
  - `ChatHistory.CollateDuplicatesHead` and `ChatHistory.AddUserDuplicatesSystem`:
    for histories of `maxHistory - 1` to `maxHistory + 3` messages, element 0
    is duplicated and the history grows.
  - `ChatHistory.CollateNotIdempotent`: collating twice differs from
    collating once.
  - `ChatHistory.AddUserSteadyState`: the steady-state length is
    `maxHistory + 4`.
- **What a `chat` appends.** The user message added to the history is not
  the typed text but the JSON-looking text built from the nickname and the
  message (src/service/KoishiChat.tsx:20), unescaped (`KoishiChat.ChatPayload`,
  `KoishiChat.HelloScenario`).
- **The default prompt placeholder.** The schema text of `systemPrompt`
  (src/index.tsx:82) says `$guildId` is supported, but the default at :83
  spells it `$guilId`, so the group id is never substituted into it
  (`ConfigService.DefaultPromptNeverSubstituted`).
- **`chatnh` never refuses.** Its quota gate negates a promise, so no user
  is ever refused (`KoishiChat.ChatNHIgnoresQuota`).
- **Conversations do not survive a restart.** A channel row is written
  only when a bot is created (src/siliconFlow/chatBot.ts:251,
  src/siliconFlow/utils.ts:50), so every stored history is the
  one-message bootstrap. A restore ignores histories of one message, so
  after a restart every conversation starts again from its system message
  (`SessionRegistry.RestartForgetsConversation`,
  `KoishiChat.ChatIsLostOnRestart`). `KoishiChat.Converse`, `Clear` and
  `Collect` each leave the store as the lookup left it.

## Model

| member | source | states |
|---|---|---|
| JsStrings.Trim | src/siliconFlow/chatBot.ts:28 | the trimmed text is empty exactly when the input is all whitespace, and otherwise starts and ends with a non-whitespace character |
| JsStrings.Or | src/siliconFlow/chatBot.ts:270 | `a \|\| b` on possibly-missing strings is `a` when `a` is a non-empty string and `b` otherwise, so it is truthy iff one operand is |
| JsStrings.OrString | src/siliconFlow/chatBot.ts:270 | `a \|\| b` gives `a` when it is truthy, else `b` |
| JsStrings.Show | src/service/ConfigService.ts:105 | a missing value becomes the text `undefined`, a present one itself |
| JsStrings.IndexOf | src/siliconFlow/chatBot.ts:278 | the result is the first occurrence at or after `from`, and none is reported only when none exists |
| JsStrings.ReplaceFirstSplit | src/siliconFlow/chatBot.ts:278 | `replace` with a string pattern replaces the first occurrence and leaves the rest, later occurrences included |
| JsStrings.ReplaceAllJoin | src/service/ConfigService.ts:105 | `replaceAll` turns a text of pattern-free pieces joined by the pattern into the same pieces joined by the replacement |
| JsStrings.FirstOccurrenceAfter | src/siliconFlow/chatBot.ts:278 | a pattern with a unique first character, preceded by pattern-free text, is found at the end of that text |
| JsStrings.ExpandLiteral | src/service/ConfigService.ts:105 | a replacement without `$` is inserted literally |
| JsStrings.IntToString | src/service/FavorableSystem.ts:76 | `level.toString()` is the decimal text, with a minus sign for negatives, and contains no `$` |
| JsStrings.CanonicalNatRoundTrip | src/siliconFlow/utils.ts:68 | a string indexes an array exactly when it is the canonical decimal text of the index |
| JsStrings.DigitsValueOfNatToString | src/siliconFlow/utils.ts:68 | reading back the decimal text of a number gives the number |
| ChatHistory.NewBot | src/siliconFlow/chatBot.ts:17-24 | a fresh bot has one empty system message, whose falsy prompt is the empty string; its endpoint is the API address plus `/chat/completions` |
| ChatHistory.SetSystemPrompt | src/siliconFlow/chatBot.ts:26-42 | it refuses exactly a missing or blank prompt; otherwise the prompt reads back, element 0 is replaced (or created), the other elements and fields are unchanged, and the length is kept (1 for an empty history) |
| ChatHistory.GetSystemPrompt | src/siliconFlow/chatBot.ts:44-56 | a prompt exists iff element 0 is a system message, and it is that message's content |
| ChatHistory.Slice | src/siliconFlow/chatBot.ts:101 | `slice(start)` with a negative start keeps the last `-start` elements, or all of them when there are fewer |
| ChatHistory.Collate | src/siliconFlow/chatBot.ts:95-103 | element 0 is kept; up to `maxHistory - 2` messages nothing changes; beyond that the rest is the last `min(len, maxHistory + 3)` old messages |
| ChatHistory.AddUserPrompt | src/siliconFlow/chatBot.ts:58-68 | the history becomes the collation of the old history with the user's message appended; so the last message is the user's text, element 0 is kept, there are at most `maxHistory + 4` messages, and no other field changes |
| ChatHistory.SendWithHistory | src/siliconFlow/chatBot.ts:70-78 | the request is the history after the same append and collate as `addUserPrompt`, and ends with the input |
| ChatHistory.SendWithoutHistory | src/siliconFlow/chatBot.ts:83-90 | the request is a single user message holding the input |
| ChatHistory.ClearHistory | src/siliconFlow/chatBot.ts:105-109 | only element 0 remains, so the system prompt is unchanged |
| ChatHistory.CollateLength | src/siliconFlow/chatBot.ts:95-103 | the length after collation is unchanged up to `maxHistory - 2`, and otherwise one more than the number of retained messages |
| ChatHistory.CollateDuplicatesHead | src/siliconFlow/chatBot.ts:97-101 | for `maxHistory - 1` to `maxHistory + 3` messages, collation duplicates element 0 and grows the history by one |
| ChatHistory.CollateNotIdempotent | src/siliconFlow/chatBot.ts:95-103 | inside that band, collating twice adds another copy of element 0 |
| ChatHistory.AddUserDuplicatesSystem | src/siliconFlow/chatBot.ts:58-68 | appending in that band keeps every message and repeats element 0 at index 1 |
| ChatHistory.AddUserSteadyState | src/siliconFlow/chatBot.ts:58-68 | at `maxHistory + 4` messages, an append drops the oldest message after the head (element 1) and keeps the length |
| ChatHistory.ClearForgetsAppend | src/siliconFlow/chatBot.ts:105-109 | clearing after an append equals clearing before it |
| ChatHistory.AppendsKeepHead | src/service/KoishiChat.tsx:158-166 | after any run of collected messages, element 0 and the other fields are unchanged, the last message is the last text, and the length is bounded |
| Completion.TransportFailure | src/siliconFlow/chatBot.ts:131-140 | a failed `fetch` becomes a status-500 response with no status text |
| Completion.Apology | src/siliconFlow/chatBot.ts:149-150 | the text is the apology prefix followed by the status text, or by the unknown-error text when that is empty |
| Completion.Truncate | src/siliconFlow/chatBot.ts:181-185 | text of up to 300 characters is kept, longer text becomes its first 300 characters plus `...` |
| Completion.JsonResponse | src/siliconFlow/chatBot.ts:164-186 | a JSON object yields its `userContent`, other JSON yields nothing, and non-JSON yields the truncated text |
| Completion.Report | src/siliconFlow/chatBot.ts:192-195 | the report opens with the reasoning in brackets and the `----------` rule, and the reply text follows the rule verbatim |
| Completion.HandleResponse | src/siliconFlow/chatBot.ts:144-204 | non-200 gives only the apology; an unreadable body throws; no content gives `undefined`; content without usage throws; content with usage always gives the full reply: the report, the JSON part and the usage with total = prompt + completion |
| Completion.NoParseWithoutContent | src/siliconFlow/chatBot.ts:146-161 | without status 200 and reply text, the outcome does not depend on the parser |
| Completion.TransportFailureApology | src/siliconFlow/chatBot.ts:135-152 | a transport failure ends in the generic apology with no JSON part or usage |
| Completion.TruncateIdempotent | src/siliconFlow/chatBot.ts:181-185 | truncating twice equals truncating once, and the result has at most 303 characters |
| Completion.NotJsonAlwaysEchoed | src/siliconFlow/chatBot.ts:178-185 | non-JSON reply text always yields a truthy JSON part |
| PluginConfig.FindGuildIndex | src/siliconFlow/chatBot.ts:267 | `find` returns the first row with the id, and nothing only when no row has it |
| PluginConfig.GuildPrompt | src/service/ConfigService.ts:89-91 | the prompt of the first row carrying the id (possibly missing), and none when no row carries it |
| ConfigService.ReplaceMarket | src/service/ConfigService.ts:103-106 | a prompt without `$guildId` is returned unchanged |
| ConfigService.GetSystemPrompt | src/service/ConfigService.ts:82-102 | with a non-empty id whose row has a prompt, that prompt; otherwise the global prompt; both substituted with the id |
| ConfigService.ReplaceMarketEvery | src/service/ConfigService.ts:103-106 | every `$guildId` is replaced by the id |
| ConfigService.ReplaceMarketWithoutId | src/service/ConfigService.ts:82-85 | without an id, every `$guildId` becomes the text `undefined` |
| ConfigService.DefaultPromptHasNoMarker | src/index.tsx:83 | the default prompt contains no `$guildId` (its placeholder is spelt `$guilId`) |
| ConfigService.DefaultPromptNeverSubstituted | src/index.tsx:83 | so substituting into the default prompt never changes it, whatever the id |
| ConfigService.EmptyGuildPromptWins | src/service/ConfigService.ts:83-99 | a row whose prompt is the empty string wins over the global prompt (`??`, not `\|\|`) |
| ConfigService.FallbackIsGlobal | src/service/ConfigService.ts:87-101 | an id without a row gets the global prompt, substituted with that id |
| ConfigService.Reconfigure | src/service/ConfigService.ts:114-125 | endpoint, key, model, token limit and temperature always take the configured values; a non-blank prompt for the bot's key replaces element 0 and nothing else; a blank one is refused and the history is kept |
| ConfigService.OnConfigChange | src/service/ConfigService.ts:108-129 | every cached bot is reconfigured under its own key, no key is added or removed, and the update rejects exactly when some key's prompt is blank |
| ConfigService.ConfigChangeTouchesOnlyHead | src/service/ConfigService.ts:114-126 | a configuration change keeps every history non-empty and changes only element 0 |
| ConfigService.ReconfigureIdempotent | src/service/ConfigService.ts:114-125 | reconfiguring a bot twice with the same configuration equals doing it once |
| ConfigService.OnConfigChangeIdempotent | src/service/ConfigService.ts:108-129 | delivering the same configuration twice equals delivering it once, rejection included |
| SessionRegistry.Marker | src/siliconFlow/chatBot.ts:278 | each variant's marker starts with a character that occurs nowhere else in it |
| SessionRegistry.ReplaceSystemPrompt | src/siliconFlow/chatBot.ts:277-279 | a template without the marker is returned unchanged |
| SessionRegistry.MarkerFirstOnly | src/siliconFlow/utils.ts:77-79 | the first marker becomes `[key]`, and the text after it, later markers included, is untouched |
| SessionRegistry.GlobalPrompt | src/siliconFlow/chatBot.ts:269 | the global tier is the configured prompt with `$guildId` replaced by `undefined` |
| SessionRegistry.ChannelPrompt | src/siliconFlow/utils.ts:68 | a per-channel prompt comes only from the row whose position the channel id spells in decimal |
| SessionRegistry.HeadContent | src/siliconFlow/utils.ts:69 | the bot tier of utils.ts is element 0's content, whatever its role |
| SessionRegistry.ChosenPrompt | src/siliconFlow/chatBot.ts:265-270 | the first truthy of the group row, the bot's own prompt and the global prompt |
| SessionRegistry.Configure | src/siliconFlow/chatBot.ts:265-275 | it fails exactly when the chosen, substituted prompt is blank; otherwise that prompt is the bot's system prompt and only element 0 changes |
| SessionRegistry.Fresh | src/siliconFlow/chatBot.ts:281-288 | a new bot takes endpoint (with the completions path), key and model from the current selection, the default token limit and temperature, and only an empty system message |
| SessionRegistry.TryRestore | src/siliconFlow/chatBot.ts:224-246 | no bot when the read fails or no history is stored; otherwise the base bot configured; on a refused prompt chatBot.ts returns the base bot unconfigured and utils.ts returns none |
| SessionRegistry.RestoreBase | src/siliconFlow/chatBot.ts:235-238 | a restore starts from a fresh bot that takes the stored history only when it has more than one message |
| SessionRegistry.CreateNew | src/siliconFlow/chatBot.ts:248-254 | the configured fresh bot (in chatBot.ts the unconfigured one when the prompt is refused), with one system message, cached, and written to its row when the write succeeds; only utils.ts can fail, on a refused prompt |
| SessionRegistry.Persisted | src/siliconFlow/chatBot.ts:290-305 | the bot is cached under its id, and its history is stored under (id, platform) when the write succeeds |
| SessionRegistry.GetBot | src/siliconFlow/chatBot.ts:207-222 | a cache hit changes nothing; a restore is cached without a write; with neither, the result is exactly a new bot's; only creation writes; the returned bot is the one cached; only utils.ts creation can fail |
| SessionRegistry.GetBotPreservesValid | src/siliconFlow/utils.ts:7-22 | every lookup keeps every cached history non-empty |
| SessionRegistry.PlatformsShareCache | src/siliconFlow/chatBot.ts:208-211 | the cache is keyed by id alone, so the same id on another platform gets the same bot |
| SessionRegistry.RestoreIgnoresShortHistory | src/siliconFlow/utils.ts:36-37 | a stored history of at most one message has no effect on the restored bot |
| SessionRegistry.RestartRoundTrip | src/siliconFlow/utils.ts:24-53 | a bot created and persisted by one lookup is restored equal after the cache is lost |
| SessionRegistry.GetBotKeepsBootstrapStore | src/siliconFlow/chatBot.ts:248-254 | a lookup writes only a new bot's one-message history, so a store holding only such histories keeps holding only them |
| SessionRegistry.RestartForgetsConversation | src/siliconFlow/chatBot.ts:224-246 | with such a store, the first lookup after a restart gives a bot holding one message |
| SessionRegistry.ChannelPromptPositional | src/siliconFlow/utils.ts:68 | channel id "i" gets row i, whatever that row's `guildId` |
| SessionRegistry.ChannelPromptIgnoresGuildId | src/siliconFlow/utils.ts:68 | a channel id that is not a decimal index never gets a row |
| SessionRegistry.BotTierRoleCheck | src/siliconFlow/utils.ts:69 | chatBot.ts reads the bot tier only from a system message, utils.ts from any element 0 |
| SessionRegistry.FreshBotDefers | src/siliconFlow/chatBot.ts:268-270 | a fresh bot's empty prompt falls through to the global prompt when there is no group row |
| TokenService.GetUser | src/service/TokenService.ts:46-57 | a known user is returned with no write; an unknown one gets a stored row with 0 used of 10000 |
| TokenService.UpdateUser | src/service/TokenService.ts:59-63 | each supplied figure overwrites the stored one, an omitted one keeps it, and other users are untouched |
| TokenService.CheckUserToken | src/service/TokenService.ts:65-69 | the gate is open iff consumption is below the allowance; the read may create the row |
| TokenService.AddUserUseToken | src/service/TokenService.ts:71-75 | consumption grows by exactly the amount; the allowance and other users are unchanged |
| TokenService.GetUserIdempotent | src/service/TokenService.ts:46-57 | a second read writes nothing and returns the same row |
| TokenService.UpdateNothingIsRead | src/service/TokenService.ts:59-63 | an update with both figures omitted only creates the row |
| TokenService.UpdateThenRead | src/service/TokenService.ts:59-63 | figures that are set read back |
| TokenService.TwoChargesSum | src/service/TokenService.ts:71-75 | two charges equal one charge of their sum, in either order |
| TokenService.ChargesToOthersCommute | src/service/TokenService.ts:71-75 | charges to different users commute |
| TokenService.ChargeAllSums | src/service/TokenService.ts:71-75 | any run of charges adds their sum and keeps the allowance |
| TokenService.ChargeToLimitDenies | src/service/TokenService.ts:65-75 | a charge that reaches the allowance closes the gate |
| DataBaseUtils.Normalize | src/service/DataBaseUtils.ts:13-23 | missing consumption and level become 0; a missing or zero allowance becomes 10000, and only then a missing or zero `remain` becomes 10000; everything else is kept |
| DataBaseUtils.GetUser | src/service/DataBaseUtils.ts:6-40 | the returned row is what the table holds afterwards: the normalised stored row, or a new full row |
| DataBaseUtils.NormalizeIdempotent | src/service/DataBaseUtils.ts:13-23 | normalising twice equals normalising once |
| DataBaseUtils.GetUserIdempotent | src/service/DataBaseUtils.ts:6-40 | reading twice equals reading once, table included |
| DataBaseUtils.NormalizedFieldsPresent | src/service/DataBaseUtils.ts:13-38 | after a read, consumption, level and a non-zero allowance are present |
| DataBaseUtils.RemainNotRecomputed | src/service/DataBaseUtils.ts:18-23 | `remain` is not derived from allowance minus consumption |
| DataBaseUtils.RemainCanStayMissing | src/service/DataBaseUtils.ts:18-23 | a row that has an allowance but no `remain` still has no `remain` after a read |
| FavorableSystem.GetUser | src/service/FavorableSystem.ts:42-53 | a known user is returned with no write; an unknown one is stored at level 0 |
| FavorableSystem.GetLevel | src/service/FavorableSystem.ts:55-58 | the stored level, or 0 for an unknown user, who is stored |
| FavorableSystem.SetLevel | src/service/FavorableSystem.ts:60-64 | the user's row holds the new level, and other rows are untouched |
| FavorableSystem.ReplacePrompt | src/service/FavorableSystem.ts:66-77 | it fails exactly when the user has no row; a prompt without any placeholder comes back unchanged |
| FavorableSystem.ReplacePromptShape | src/service/FavorableSystem.ts:73-76 | the first `$guildId`, `$userName` and `$favorable` are replaced in order by the group id, the nickname and the level, and later repeats are left as they are |
| FavorableSystem.ReplacePromptWithoutPlaceholders | src/service/FavorableSystem.ts:73-76 | a prompt without `$` is returned unchanged |
| FavorableSystem.ReplacePromptWithoutGuildId | src/service/FavorableSystem.ts:73-76 | in a prompt without `$guildId`, the first `$userName` and the first `$favorable` become the nickname and the level, and everything after the level, a repeated `$userName` included, is kept |
| FavorableSystem.LevelPromptKeepsSecondName | src/index.tsx:115-119 | a level prompt of the schema's form gets the nickname and level inside the braces and keeps the literal `$userName` in the sentence after them |
| FavorableSystem.DefaultLevelPromptsKeepSecondName | src/index.tsx:115-119 | each of the three default level prompts keeps its second `$userName` literal after substitution |
| FavorableSystem.ConfigUpdate | src/service/FavorableSystem.ts:85-91 | endpoint, key and model come from the poke selection, token limit and temperature are kept; the poke prompt is installed, or refused when missing or blank, leaving the history |
| FavorableSystem.CreateAiBot | src/service/FavorableSystem.ts:79-83 | a main-selection bot redirected by `configUpdate`; its history has one message |
| FavorableSystem.SetThenGetLevel | src/service/FavorableSystem.ts:55-64 | a level that is set reads back, and the read writes nothing |
| FavorableSystem.ConfigUpdateIdempotent | src/service/FavorableSystem.ts:85-91 | applying the poke configuration twice equals applying it once |
| FavorableSystem.DefaultPokePromptAccepted | src/index.tsx:122-123 | the default poke prompt is accepted by `setSystemPrompt` |
| KoishiChat.ChatPayload | src/service/KoishiChat.tsx:20 | the nickname and the message stand verbatim, unescaped, at fixed offsets of the JSON-looking text |
| KoishiChat.CollectPayload | src/service/KoishiChat.tsx:164 | the nickname and the message content stand verbatim, unescaped, at fixed offsets of the recorded text |
| KoishiChat.DenialText | src/service/KoishiChat.tsx:23 | the refusal opens with the nickname in braces |
| KoishiChat.ClearReport | src/service/KoishiChat.tsx:147 | the number between the fixed texts reads back as the count removed |
| KoishiChat.ChargeFor | src/service/KoishiChat.tsx:24-29 | a charge exists exactly when a reply came back with a non-zero total, and it is that total |
| KoishiChat.Settle | src/service/KoishiChat.tsx:27-32 | a missing reply or an exception leaves the ledger; otherwise the sender's row exists, keeps its allowance and grows by the total exactly when the total is non-zero, and nobody else's row changes |
| KoishiChat.Converse | src/service/KoishiChat.tsx:18-32 | refused iff the gate is closed, with the denial text and no send; otherwise the request is exactly the history `sendMessageWithHistory` builds from the payload, ends with the unescaped payload, keeps element 0, is bounded, becomes the cached history, and the ledger is settled with the handled reply |
| KoishiChat.Chat | src/service/KoishiChat.tsx:16-32 | the lookup comes first: a failed lookup changes nothing, otherwise the looked-up bot and registry go to the gate-send-charge step, even for a user who is then refused |
| KoishiChat.ConverseNH | src/service/KoishiChat.tsx:71-83 | nobody is refused; the request is the payload alone; the registry is unchanged; the ledger is settled with the handled reply |
| KoishiChat.ChatNH | src/service/KoishiChat.tsx:67-83 | a failed lookup changes nothing, otherwise the send-and-charge step of `chatnh` runs on what the lookup left |
| KoishiChat.Clear | src/service/KoishiChat.tsx:143-147 | always succeeds, because the group lookup never fails; the history becomes its element 0, the report counts the messages removed, and the store and ledger are untouched |
| KoishiChat.Collect | src/service/KoishiChat.tsx:158-166 | always succeeds; the bot's own messages change nothing; any other message is appended to its group's history, with no write |
| KoishiChat.DeniedChatChargesNothing | src/service/KoishiChat.tsx:21-24 | a refused `chat` sends nothing and charges nothing; the ledger only gains the user's default row and the registry is what the lookup left |
| KoishiChat.ChatChargesTotal | src/service/KoishiChat.tsx:27-32 | a reply with a non-zero total charges exactly that total to the sender and nobody else |
| KoishiChat.ChatWithoutUsageChargesNothing | src/service/KoishiChat.tsx:27-32 | without a truthy total nothing is charged |
| KoishiChat.ChargePastLimitClosesGate | src/service/KoishiChat.tsx:21-32 | the gate is checked before the charge, so one reply can take a user past the allowance, and the next `chat` is refused |
| KoishiChat.ChatNHIgnoresQuota | src/service/KoishiChat.tsx:72-83 | a user that `chat` refuses is still sent a request by `chatnh` and charged for it |
| KoishiChat.HelloScenario | src/service/KoishiChat.tsx:16-32 | a first `chat hello` in an empty state sends the system message and the payload, caches that history, and charges 5 + 3 = 8 |
| KoishiChat.HelloConverse | src/service/KoishiChat.tsx:21-32 | a new user talking to a bot holding only its system message sends that message and the payload, the cache keeps that history, and a 5 + 3 token reply charges 8 |
| KoishiChat.ClearAfterCollect | src/service/KoishiChat.tsx:139-166 | clearing after collecting leaves exactly the original element 0 |
| KoishiChat.ChatIsLostOnRestart | src/service/KoishiChat.tsx:18-32 | a `chat` writes nothing to the store, so after a restart the group's bot holds only its system message |
| KoishiChat.ChatKeepsValid | src/service/KoishiChat.tsx:16-32 | after a `chat` every cached history is still non-empty |
| KoishiChat.ChatNHKeepsValid | src/service/KoishiChat.tsx:67-83 | after a `chatnh` every cached history is still non-empty |
| KoishiChat.ClearKeepsValid | src/service/KoishiChat.tsx:143-147 | after a `chat-clear` every cached history is still non-empty |
| KoishiChat.CollectKeepsValid | src/service/KoishiChat.tsx:158-166 | after collecting a message every cached history is still non-empty |
| PluginEvents.OnConfig | src/index.tsx:149-154 | the cache is reconfigured; the poke conversation is updated only when that did not reject |
| PluginEvents.OnConfigKeepsValid | src/index.tsx:149-154 | a configuration change keeps every cached history and the poke conversation's history non-empty |
| PluginEvents.BlankGuildPromptBlocksPokeUpdate | src/index.tsx:149-154 | one cached group whose resolved prompt is blank (empty or whitespace only) leaves the poke conversation as it was |
| PluginEvents.OnConfigIdempotent | src/index.tsx:149-154 | delivering the same configuration twice equals delivering it once |

## Left out

- HTTP transport (`_sendApiRequest`, `getModelList`, the model list command): the reply is an input of type `ApiResponse`. Only the status-500 fallback is modelled.
- `JSON.parse`: an input function returning `Parsed`. The body of a status-200 response is reduced to the three fields the plugin reads.
- Koishi `Schema` definitions and dynamic schema registration. The configuration is a plain value, and every `select` and `detail` field the core reads is assumed present.
- Message rendering and `session.send`, the forward message and its `remain - totalUse` line, and logging.
- src/utils/Utils.ts: the nickname is an input string (`Session.userName`).
- Concurrency: un-awaited promises and interleavings at `await` are sequential steps. A throw from an un-awaited `async configureSystemPrompt` (chatBot.ts) is dropped, and the bot is left as it was.
- Database failures: a failed read or write is a flag in `Env`. `database.set` on a missing `channel` row is not distinguished from a successful write.
- The three services share the `qz_siliconflow` table; the model keeps a separate map per service (`TokenService.Ledger`, `DataBaseUtils.UserTable`, `FavorableSystem.LevelTable`). A row created by one service without another's fields is not modelled.
- FavorableSystem.ReplacePrompt: a row that exists but lacks `level` (as `TokenService.getUser` creates them) would make `level.toString()` throw; with separate tables every modelled row has a level. Its contract gives the result only for prompts without placeholders; the substituted text is stated by the lemmas for the two prompt shapes (`ReplacePromptShape` with all three placeholders, `ReplacePromptWithoutGuildId` without `$guildId`), not for placeholders in arbitrary order.
- src/siliconFlow/utils.ts calls `ConfigService` without importing it; it is modelled as if the import were present.
- `data.config` and `data.ctx.config` are the same configuration value.
- JavaScript strings are UTF-16: lengths, `trim` and the 300-character truncation are counted in Dafny characters. The whitespace set of `trim` is the common ASCII and Unicode space characters.
- Token counts, levels and limits are integers: fractional values and floating-point rounding are not modelled, and temperature is an opaque `real`.
- ChatHistory.ClearHistory: requires a non-empty history. The code would produce `[undefined]`, but every cached bot has one: lookups keep it (`SessionRegistry.GetBotPreservesValid`), and so do `chat`, `chatnh`, `chat-clear`, the collecting middleware and configuration changes (`KoishiChat.ChatKeepsValid`, `KoishiChat.ChatNHKeepsValid`, `KoishiChat.ClearKeepsValid`, `KoishiChat.CollectKeepsValid`, `PluginEvents.OnConfigKeepsValid`).
- A `chat` outside a group (no `guildId`) is not modelled: the group id is a string.
- src/event/onConfigChange.ts and src/utils.ts read configuration fields that the `Config` type does not have, so their effect cannot be determined.
- src/event/onMessageRecive.ts is the same middleware as `collectMessage` and is modelled once.
- Poke handling: `onPoke` registers an empty listener, so affection bumps, tiers and cooldowns do not exist in the code. The default `levels` prompts are modelled only as texts for the substitution lemmas; choosing a level's prompt and `maxFavorable` are not modelled.
- The `!ok` branch of `_handleResponse` after the status check cannot be taken with status 200.
