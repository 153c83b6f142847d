# telegram-discord-bridge: the forwarding core in Dafny

This project models the decision and bookkeeping core of a bridge that copies
messages from Telegram channels to Discord channels, and proves properties of
that model. It covers the following.

- **Routing and filtering** (`Router`). This selects the forwarders configured
  for a Telegram channel. For each one it decides whether to forward and
  whether to mention everyone, using `forward_everything`, the allow-list
  `forward_hashtags` and the deny-list `excluded_hashtags`.
- **The new-message handler** (`Bridge`). For every forwarder that forwards,
  it builds a request, posts it through an abstract Discord side, and records
  the outcome. A delivery maps the Telegram id to the first Discord id; a
  failed delivery leaves a missed record.
- **The edit and delete handlers** (`BridgeEdits`). They only read the mapping
  history and skip what is not mapped. The edit handler returns on a Discord
  error. The delete handler returns on a missing channel, a `NotFound` fetch
  or a failed delete, but a `Forbidden` or HTTP error from the fetch, or a
  fetch that finds nothing, raises out of it.
- **The recovery round** (`Recovery`) of `on_restored_connectivity`. It reads
  each forwarder's largest mapped Telegram id and replays what its channel
  received after it. While Discord is unhealthy it skips messages. It always
  ends by sleeping.
- **The mapping history** (`History`): forwarder name → (Telegram id → first
  Discord id). It also models the legacy flat, string-keyed mapping file
  (`LegacyStore`).
- **Text transformations.**
  - `split_message` (`Split`).
  - `apply_markdown` and `telegram_entities_to_markdown`, both the bridge's
    and the first version's (`Markdown`).
  - Hashtag extraction, message text composition and the media path choice
    (`TelegramHandler`).
- **Mention-role resolution, the send loop and reply references**
  (`DiscordHandler`), in the bridge's and the legacy form.
- **Configuration rules.**
  - The pydantic validators of a forwarder, including the `KeyError` or
    `AttributeError` that escapes them for a tag dict with a missing or
    non-string key, and the two cross-forwarder validators (`Config`). The
    latter belong to `ConfigYAMLSchema`, which the loading path does not build.
  - The legacy hand-written `validate_config` (`LegacyConfig`), where
    `sys.exit` becomes a `Failure`.
- **Small state components.**
  - `DiscordClientHealth.report_status` (`DiscordHealth`).
  - The timestamp-keyed `HealthHistory` (`HealthHistory`).
  - The subscriber list of `EventDispatcher` and the equality of its
    exception (`Events`).

Python's `None` is `Option.None`, and a raised exception is `Result.Failure`.
Network calls appear as function-typed parameters: sending a request, fetching
a Discord message, editing or deleting it, fetching Telegram history, and the
health flags. The model keeps the branches of the code that consume their
outcomes. Strings are `seq<char>`. Python slicing is modelled with clamped
bounds (`PyStr.Prefix`, `PyStr.Suffix`, `PyStr.Slice`).

The following facts about the code shape the model.

- A mapping keeps only the first Discord message id of a delivery, not all of
  them (bridge/core.py:307-309).
- There is no stored cursor. The recovery window starts at the largest mapped
  Telegram id of each forwarder (bridge/core.py:335-347,
  bridge/history/history.py:71).
- There is no delete operation on the store. The edit and delete handlers
  never write it.
- Fetched messages are replayed in the order they are fetched; nothing sorts
  them (bridge/core.py:350).
- Discord health is checked again for every message. An unhealthy Discord
  skips that message and the loop goes on to the next one
  (bridge/core.py:359-363).
- `forward_to_discord` does not report a failure. It stops at the first
  `Forbidden` or `HTTPException` and returns what was sent so far. A missed
  record is written only when nothing was sent.
- An exception that escapes the reference lookup or the posting ends the
  new-message handler, keeping what earlier forwarders recorded. In the
  recovery round the broad `except` (bridge/core.py:370) catches it and ends
  the round's work.
- Tag matching lowercases the configured names but not the message's
  hashtags. It is therefore not case-insensitive on both sides (see
  `Router.MixedCaseMessageTagMissed`).

## Model

| member | source | states |
|---|---|---|
| PyStr.LStrip | bridge/utils.py:28 | `lstrip()` drops exactly a leading run of whitespace. The result is a suffix of the input and starts with a non-space, or is empty. |
| PyStr.RFind | bridge/utils.py:23 | `rfind` is -1 exactly when the character is absent; otherwise the index holds it and no later position does |
| PyStr.LowerFolds | bridge/core.py:256 | after `lower()` no ASCII capital is left, and a text without capitals comes back unchanged |
| PyStr.LowerIdempotent | bridge/core.py:256 | lowering twice is lowering once, so a name lowered by the configuration and again by the decision matches the same tags |
| PyStr.LowerAppend | bridge/core.py:256 | `lower()` distributes over concatenation: it folds each character on its own |
| PyStr.PiecesRejoin | bridge/utils.py:38-43 | `text[:start] + text[start:end] + text[end:]` gives back the text for any ordered bounds, even past the end |
| PyStr.ParseIntToString | utils.py:26 | `int(str(n)) == n`: the stringified key can be read back as the integer |
| PyStr.IntToStringInjective | utils.py:26 | two different integer ids never share a string key |
| Split.CutIndex | bridge/utils.py:23-25 | the cut is at most `max_length`, and below it only at a newline |
| Split.CutIndexIsLastNewline | bridge/utils.py:23-25 | the cut is `max_length` exactly when no newline is among the first `max_length` characters; otherwise no newline follows the cut inside that window |
| Split.Remainder | bridge/utils.py:28 | what remains after a cut is strictly shorter than the message, also when the cut is at 0 and the leading newline is stripped, so the loop ends |
| Split.SplitLoop | bridge/utils.py:22-31 | every part of the loop is at most `max_length` long |
| Split.SplitMessage | bridge/utils.py:16-33 | at least one part. A message within the limit comes back unchanged as the only part, and every part fits the limit |
| Split.SplitMessageLoop | utils.py:39-56 | the `while` loop as written (the legacy copy is the same code) computes `SplitMessage`, and all its parts fit the limit |
| Split.SplitKeepsText | bridge/utils.py:22-31 | splitting loses no visible character: the non-whitespace characters of the parts, read in order, are those of the message |
| Markdown.ApplyMarkdown | bridge/utils.py:36-46 | the returned correction is `len(d0)+len(d1)`, and the new text is longer by exactly that much |
| Markdown.ApplyMarkdownUnwraps | bridge/utils.py:36-46 | the delimiters sit at the clamped start and end, and taking them out gives back the original text |
| Markdown.Insert | bridge/utils.py:73 | inserting into a sorted list keeps it sorted by (start ascending, end descending) and adds exactly that entity |
| Markdown.SortEntities | bridge/utils.py:73 | the entities come out sorted by start ascending, then end descending, as a permutation of the input |
| Markdown.InsertWithKey | bridge/utils.py:73 | inserting an entity puts it in front of every entity with the same start and end |
| Markdown.SortEntitiesStable | bridge/utils.py:73 | the sort is stable, as Python's `sorted` is: entities with the same start and end keep their input order |
| Markdown.ToMarkdown | bridge/utils.py:49-52 | without entities the text is returned unchanged |
| Markdown.ConvertCorrectionExact | bridge/utils.py:80-111 | with the text-URL correction counting the six characters inserted, the offset correction always equals the number of characters inserted so far |
| Markdown.ToMarkdownLength | bridge/utils.py:49-111 | the converted text is the original length plus the final offset correction |
| Markdown.AsWrittenMisplacesAfterTextUrl | bridge/utils.py:95-109 | as written, the `+ 4` correction makes a bold entity after a text URL wrap `)` instead of the bold text; the repaired correction wraps the right text |
| Markdown.ToMarkdownV1 | v1/app_v1.py:280-283 | in the first version, no entities means the text is unchanged |
| Markdown.ConvertV1CorrectionExact | v1/app_v1.py:296-316 | in the first version, entities are taken in the given order, and the `+ 4` for a text URL is exactly what it inserts, so the correction stays exact |
| TelegramHandler.HashtagEntities | bridge/telegram_handler/core.py:63-65 | exactly the hashtag entities of the message, and no more of them than there are entities |
| TelegramHandler.HashtagEntitiesAppend | bridge/telegram_handler/core.py:63-65 | the filter keeps order and repeats: the hashtags of a concatenation are those of the first part followed by those of the second |
| TelegramHandler.HashtagEntitiesSingle | bridge/telegram_handler/core.py:64-65 | a single entity is kept exactly when it is a hashtag |
| TelegramHandler.HashtagTexts | bridge/telegram_handler/core.py:61-67 | the i-th text is the slice of the message text under the i-th hashtag entity, one per hashtag entity |
| TelegramHandler.ForwardHashtags | bridge/telegram_handler/core.py:61-67 | one text slice `[offset, offset+length)` per hashtag entity, in entity order, case unchanged; no entities give no hashtags |
| TelegramHandler.ForwardHashtagsAppend | bridge/telegram_handler/core.py:61-67 | the hashtags of a message whose entities are two runs are those of the first run followed by those of the second |
| TelegramHandler.ForwardHashtagsIgnoreOthers | bridge/telegram_handler/core.py:64-65 | an entity that is not a hashtag adds nothing |
| TelegramHandler.HashtagTextIsSlice | telegram_handler.py:84-90 | the legacy extraction returns the raw slice under a hashtag entity |
| TelegramHandler.ComposeText | bridge/telegram_handler/core.py:75-86 | the text is the role line (roles joined by `", "` then a newline, when there are roles), then the message text (with the AI suggestion appended when enabled), then `"\n@everyone"` when everyone is mentioned |
| TelegramHandler.ComposeTextPlain | bridge/telegram_handler/core.py:75-79 | with AI disabled and no mentions the message text is not altered |
| TelegramHandler.ProcessMessageTextAsWritten | bridge/telegram_handler/core.py:88 | the call to the two-parameter converter with three arguments always raises |
| TelegramHandler.ProcessMessageText | bridge/telegram_handler/core.py:70-88 | with the call repaired, the function always yields a text; without entities it is exactly the composed text |
| TelegramHandler.ProcessMessageTextKeepsText | bridge/telegram_handler/core.py:81-86 | the message text sits right after the role line, and the text ends with the `@everyone` line exactly when everyone is mentioned |
| TelegramHandler.ProcessMessageTextLegacyAsWritten | telegram_handler.py:10 | every call of the legacy text step fails with `ImportError`, because the legacy `utils.py` does not define the converter it imports |
| TelegramHandler.LegacyTextImportFails | telegram_handler.py:10 | every call of the legacy text step fails with `ImportError` |
| TelegramHandler.ProcessMessageTextLegacy | telegram_handler.py:66-73 | with the converter imported, a message without entities keeps its text as a prefix, and `"\n@everyone"` follows exactly when `mention_everyone` or `override_mention_everyone` is set |
| TelegramHandler.LegacyTextMatchesBridge | telegram_handler.py:66-73 | without entities, the legacy step equals the bridge's step for the flag `mention_everyone or override_mention_everyone`, no roles and no AI text |
| TelegramHandler.ChooseMediaPathAppend | bridge/telegram_handler/core.py:114-124 | the path depends only on whether some entity is a link: two entity runs together take the link path exactly when either does, a non-link entity never changes the path, and a link entity forces the link path |
| TelegramHandler.HandleMessageMedia | bridge/telegram_handler/core.py:91-126 | on the link path, what was posted. On the download path, what `process_media_message` returned, which is `None` when opening the file raised `OSError`. The result is `None` exactly in that case |
| TelegramHandler.LegacyHandleMessageMedia | telegram_handler.py:49-63 | returns `None` exactly when a URL entity exists, because the `return` sits inside the `else`; otherwise what was sent |
| TelegramHandler.LegacyLinkMediaLosesResult | telegram_handler.py:54-63 | a media message with a link whose part was sent comes back as `None` from the legacy handler, while the bridge's handler returns it |
| TelegramHandler.MediaHandlersAgreeWithoutLinks | telegram_handler.py:49-63 | without a URL entity, the legacy and the bridge's handlers return the same when the file opens |
| DiscordHandler.FirstRoleNamed | bridge/discord_handler/core.py:125-126 | the first server role with exactly that name; `None` exactly when no role has it |
| DiscordHandler.RoleMentions | bridge/discord_handler/core.py:121-127 | a mention is in the set exactly when one of the configured role names resolves to it |
| DiscordHandler.GetMentionRoles | bridge/discord_handler/core.py:110-129 | an empty hashtag list yields no mention |
| DiscordHandler.GetMentionRolesExactly | bridge/discord_handler/core.py:115-129 | a mention is produced exactly when some hashtag, lowercased, has an override naming a role that resolves to it. The result is a set, so it has no duplicates. The legacy `get_mention_roles` (discord_handler.py:86-105) is the same code |
| DiscordHandler.UnconfiguredTagAddsNothing | bridge/discord_handler/core.py:117-118 | a hashtag whose lowercase form has no override contributes nothing |
| DiscordHandler.BuiltinRoleMentioned | bridge/discord_handler/core.py:121-134 | a built-in role (its lowercase name is in the list as given) is mentioned as `"@"` plus the role name in its configured case |
| DiscordHandler.SendParts | bridge/discord_handler/core.py:57-76 | each posted message is the outcome of sending that part, in order, with the image only on the first part. The loop stops only at a `Forbidden` or HTTP failure and returns what was sent. An exception escapes exactly when the first send that does not succeed raises something other than an `HTTPException` |
| DiscordHandler.ForbiddenStopsBeforeRaise | bridge/discord_handler/core.py:66-76 | a `Forbidden` on the first part ends the loop normally with nothing sent, so a later send that would raise never happens |
| DiscordHandler.ForwardToDiscord | bridge/discord_handler/core.py:52-76 | what is returned is a prefix of the split parts, in order, with the file on the first. When every send succeeds, every part is posted |
| DiscordHandler.SendPartsLegacy | discord_handler.py:49-51 | the legacy loop catches nothing: it fails exactly when some send fails, and otherwise posts every part |
| DiscordHandler.ForwardToDiscordLegacy | discord_handler.py:36-53 | on success, one posted message per split part, in order, with the image on the first |
| DiscordHandler.FetchDiscordReference | bridge/discord_handler/core.py:79-107 | no reference without a (truthy) mapping. It fails exactly when the history call raises something other than `NotFound`, which propagates. A reference is the mapped id, returned exactly when that id is among the messages around it |
| History.Lookup | bridge/history/history.py:55-64 | `None` exactly when the forwarder is unknown or the Telegram id is not mapped for it |
| History.SaveMapping | bridge/history/history.py:40-53 | after a save the lookup of `(f, t)` is the saved id and every other lookup is unchanged. The forwarder is known afterwards, and a valid store stays valid |
| History.ValidAfterNew | bridge/history/history.py:44-48 | a forwarder's first save appends its name once and gives it an entry, so every forwarder has one and `max` is defined |
| History.ValidAfterUpdate | bridge/history/history.py:48 | overwriting or adding an entry of a known forwarder keeps the store valid |
| History.SaveIdempotent | bridge/history/history.py:48 | saving the same mapping twice is saving it once: one entry per key, overwritten |
| History.MaxKey | bridge/history/history.py:71 | `max(forwarder_data, key=int)` is a mapped id no smaller than any other |
| History.LastMessages | bridge/history/history.py:66-78 | one record per forwarder, in iteration order. Its Telegram id is the largest mapped one, and its Discord id is what that id maps to |
| History.LastMessageAfterSave | bridge/history/history.py:44-48 | after a save, a forwarder's last Telegram id is the larger of its previous last id and the saved id |
| History.SaveAllIds | bridge/history/history.py:40-53 | after a run of saves, a forwarder's mapped ids are its earlier ones plus exactly the ids saved for it |
| History.LastIdIsLargestSaved | bridge/history/history.py:66-78 | whatever the order of the saves, a forwarder's last Telegram id is the largest id saved for it |
| LegacyStore.Save | utils.py:23-29 | after a save the key reads back the saved id. Every key with another string form is unchanged, and the keys grow by the stringified id |
| LegacyStore.Get | utils.py:32-36 | `None` exactly when the stringified id is absent |
| LegacyStore.IntAndStringKeysAgree | utils.py:26-35 | an integer id and its decimal string address the same entry, in both directions |
| LegacyStore.SaveKeepsOtherIds | utils.py:27 | saving one integer id leaves every other integer id as it was |
| Config.ForwardNamesHashedMeans | bridge/config/config.py:89-96 | the `forward_hashtags` loop passes exactly when every name starts with `#` |
| Config.ExcludedNamesHashedMeans | bridge/config/config.py:98-105 | the `excluded_hashtags` loop passes exactly when every name starts with `#` |
| Config.OverridesMean | bridge/config/config.py:107-116 | the `mention_override` loop passes exactly when every tag starts with `#` and every role list is non-empty |
| Config.ForwardAvoidsExcludedMeans | bridge/config/config.py:49-58 | the double loop passes exactly when no forward name equals an excluded name (exact string equality) |
| Config.ForwarderAcceptedIffWellFormed | bridge/config/config.py:36-116 | for a forwarder whose tag dicts carry their keys as strings (`Config.LoadForwarder` covers the others), with the channel-id checks repaired, it is accepted exactly when all of the following hold: its name is non-empty and at most 64 characters; its ids are non-negative; every tag is `#`-prefixed and every override has roles; it forwards everything or has forward tags; no tag is both allowed and excluded; and not both overrides and `mention_everyone` are set |
| Config.NegativeChannelIdAccepted | bridge/config/config.py:75-87 | as written, the channel-id validators accept channel -5, because the assert repeats its guard; the repaired rule refuses it |
| Config.FirstStop | bridge/config/config.py:89-116 | a validator loop passes exactly when every step passes; otherwise it ends with its first step that does not pass, an assertion as much as an exception |
| Config.LoadForwarder | bridge/config/config.py:13-116 | an exception escaping a tag validator (a missing key, or a non-string under it, met before any assertion fails) ends the load as that exception. Otherwise the forwarder loads exactly when it is well formed, as the forwarder its dicts describe |
| Config.WellTypedNeverRaises | bridge/config/config.py:89-116 | tag dicts that carry every key the validators read, as strings, never let an exception escape |
| Config.LiftLoads | bridge/config/config.py:13-116 | reading back a forwarder written out in full gives the same forwarder; it loads exactly when well formed, and otherwise fails with its error kinds |
| Config.MissingForwardNameRaises | bridge/config/config.py:89-96 | a `forward_hashtags` dict without `name`, reached because every earlier one has a `#` name, makes the load raise `KeyError('name')` |
| Config.MissingRolesRaises | bridge/config/config.py:107-116 | an override with a `#` tag but no `roles` key, reached after the two hashtag lists and the earlier overrides pass, makes the load raise `KeyError('roles')` |
| Config.LoadForwarders | bridge/config/config.py:390-435 | the forwarder list loads exactly when every entry loads, entry by entry; it fails with an escaped exception exactly when some entry lets one escape. No cross-forwarder rule is applied |
| Config.DuplicatePairLoads | bridge/config/config.py:337-349 | two entries on the same channel pair both load through `from_yaml`'s path, although the duplicate breaks the rule `ConfigYAMLSchema` states |
| Config.LoadConfig | bridge/config/config.py:326-370 | with the cross-forwarder rules applied, loading succeeds exactly when every entry loads, the channel pairs are distinct and no channel's forwarders share a hashtag; a reported duplicate is a real one |
| Config.CheckPairs | bridge/config/config.py:337-349 | no duplicate is reported exactly when all `(tg_channel_id, discord_channel_id)` pairs are distinct; a reported pair belongs to two forwarders |
| Config.FindOverlap | bridge/config/config.py:363-366 | the first remembered set meeting the new tags, or none exactly when all are disjoint from them |
| Config.CheckSharedHashtags | bridge/config/config.py:351-370 | rejection happens exactly when two forwarders on the same Telegram channel share a lowercased forward hashtag, and the reported shared set is non-empty |
| Config.ChannelOfForwarder | bridge/config/config.py:450-455 | the `tg_channel_id` of the first forwarder with that name, or `None` exactly when no forwarder has it |
| Config.OverrideMap | app.py:40-42 | the override map has exactly the lowercased tags of the configured overrides as keys |
| Config.OverrideMapLastWins | app.py:40-42 | a tag maps to the roles of the last override with that lowercased tag |
| LegacyConfig.MissingKey | config.py:100-103 | the first key the forwarder loop reads and lacks, in the reading order `tg_channel_id`, `discord_channel_id`, `mention_everyone`, `forward_hashtags`: each is reported exactly when it is missing and every earlier one is present; none exactly when all four are present |
| LegacyConfig.CheckForwardersAccepts | config.py:99-131 | the forwarder loop passes exactly when every forwarder has its four keys, every id is an `int`, pairs are distinct, and no forwarder combines `mention_everyone` with an overriding tag |
| LegacyConfig.ForwarderKeyErrorMeans | config.py:99-103 | a `KeyError` of the forwarder loop names a key some forwarder lacks |
| LegacyConfig.MissingHashtagsRefused | config.py:103 | a forwarder without `forward_hashtags` is refused with `KeyError`, although app.py:48 reads the key with a default |
| LegacyConfig.SharedHashtagWarnings | config.py:133-148 | a warning is issued exactly for a later forwarder on a channel whose names meet those of the channel's first forwarder, and it names that overlap |
| LegacyConfig.ValidateConfig | config.py:88-148 | incomplete OpenAI settings exit first. Otherwise the check succeeds exactly when the forwarder loop accepts and every tag has a name, and then returns exactly the shared-hashtag warnings; shared hashtags never reject. A tag without a name fails with `KeyError("name")` once the forwarder loop passes, and any other `KeyError` names a key some forwarder lacks |
| LegacyConfig.BoolChannelCollidesWithOne | config.py:106-124 | `True` passes the `int` check and collides with channel 1 in the duplicate check |
| LegacyConfig.OnlyFirstSetCompared | config.py:140-145 | the second and third forwarders of a channel can share a hashtag without a warning, because only the first forwarder's set is kept |
| Router.MatchingForwarders | bridge/core.py:321-323 | exactly the configured forwarders on that channel |
| Router.MatchingForwardersAppend | bridge/core.py:321-323 | matching distributes over concatenation, so configuration order is kept |
| Router.Matching | bridge/core.py:254-268 | exactly the tags, allowed or excluded, whose lowercased name is among the message's hashtags as written |
| Router.ShouldForwardExactly | bridge/core.py:236-271 | a forwarder forwards exactly when it forwards everything or an allowed tag is present, and no excluded tag is present |
| Router.DenyWins | bridge/core.py:263-271 | an excluded tag in the message stops forwarding whatever the default or the allow-list decided |
| Router.MentionEveryoneExactly | bridge/core.py:237-261 | `mention_everyone` stays the forwarder's flag unless the allow step ran and matched; then it is whether some matched tag overrides it |
| Router.HashtagsReadExactly | bridge/core.py:239-265 | the message's hashtags are read exactly when one of the two filter branches runs |
| Router.AlertScenario | bridge/core.py:236-274 | a forwarder allowing only `#alert` forwards a message tagged `#alert` and drops one without tags |
| Router.DenyOverridesAllowScenario | bridge/core.py:263-271 | allowing `#news` and excluding `#draft`, a message tagged with both is not forwarded |
| Router.CaseVariantAllowNeverForwards | bridge/config/config.py:49-58 | the validator compares names exactly but the decision lowercases them. Allowing `#News` and excluding `#news` is accepted, and that forwarder never forwards |
| Router.MixedCaseMessageTagMissed | bridge/core.py:256 | the message's hashtags are not lowercased, so a message tagged `#News` does not match an allowed `#News` |
| Router.ExactMatches | v1/app_v1.py:220-221 | exactly the allowed tags whose name, case unchanged, is among the message's hashtags |
| Router.DecideV1 | v1/app_v1.py:201-229 | no decision without a route for the channel. Otherwise it forwards exactly when it forwards everything or an exact allowed match exists, and overrides `@everyone` exactly when a matched tag says so. There is no deny-list |
| Bridge.RequestFor | bridge/core.py:279-289 | the request carries the forwarder, the message id and the decided mention flag. It fails exactly when the message replies and the reference lookup raises. A reference exists only for a truthy reply id, and it is the mapped Discord id of the replied-to message |
| Bridge.Forwarding | bridge/core.py:273-274 | exactly the forwarders whose decision is to forward |
| Bridge.HandleForwarders | bridge/core.py:232-318 | each delivery is the send outcome of its request for this message |
| Bridge.HandleForwardersDelivers | bridge/core.py:232-318 | deliveries are made for a prefix of the forwarders that decide to forward, in order. It is all of them when nothing raised and a strict prefix when something did. A skipped forwarder sends nothing |
| Bridge.ExceptionEndsHandler | bridge/core.py:287-299 | an exception from the reference lookup or the posting for the first forwarder that forwards ends the handler with nothing delivered and the state unchanged |
| Bridge.NeverRaisesRunsToEnd | bridge/core.py:232-318 | when neither the history call nor the posting can raise, the handler never ends early |
| Bridge.HandleForwardersRecords | bridge/core.py:301-318 | the loop's final state is each delivery's bookkeeping applied in order |
| Bridge.HandleForwardersMissed | bridge/core.py:312-316 | the missed records grow by exactly the failed deliveries, in order |
| Bridge.HandleForwardersHistory | bridge/core.py:301-311 | only this message's entries change. Every other Telegram id keeps its mapping, the store stays valid, and each forwarder ends with the first id of its last successful delivery |
| Bridge.HandleNewMessage | bridge/core.py:216-318 | every delivery is for a forwarder configured for the channel that decides to forward; when nothing raised, every such forwarder is delivered to |
| Bridge.NoForwarderNoEffect | bridge/core.py:222-227 | a channel without a forwarder causes no send, no mapping write and no missed record |
| Bridge.DeliveredMessageMapped | bridge/core.py:301-311 | a delivery that produced messages maps the Telegram id to the first Discord id, and records nothing missed |
| Bridge.FailedDeliveryRecorded | bridge/core.py:312-318 | a delivery that produced nothing writes no mapping and records one missed message with the forwarder, Telegram id and Discord channel |
| Bridge.HandleForwardersAsWritten | bridge/core.py:236-288 | as written, the loop finishes (changing nothing) exactly when no forwarder decides to forward. Any forwarder that does forward raises |
| Bridge.PlainForwarderCrashes | bridge/core.py:239-279 | as written, a forwarder with `forward_everything` and no tag lists reads `message_forward_hashtags` unbound; the repaired handler delivers once when nothing raises |
| Bridge.EarlierForwarderBindsHashtags | bridge/core.py:240-285 | the variable outlives its iteration: after a filtering forwarder read it, the plain forwarder gets past it and fails at the markdown call instead |
| BridgeEdits.EditLoop | bridge/core.py:116-155 | the loop returns early exactly when some forwarder's fetch or edit fails. Every edit is on a reached mapped copy, and a loop that runs to the end edits every reached copy. Missing mapping, channel or message skip |
| BridgeEdits.HandleEdit | bridge/core.py:95-155 | nothing happens without a message. Every edit is on the mapped copy of the message for a forwarder of the channel; the handler never writes the history |
| BridgeEdits.EditNotFoundReturns | bridge/core.py:137-155 | a copy that fails when edited makes the handler return quietly with nothing edited, the mapping untouched |
| BridgeEdits.DeleteIds | bridge/core.py:177-213 | the inner loop stops exactly when a mapped id meets a missing channel, a failed fetch or a failed delete. Deletes are on mapped copies only, and a finished loop deletes every mapped one |
| BridgeEdits.DeleteLoopEnds | bridge/core.py:174-213 | the outer loop ends early exactly when some forwarder and deleted id stop it |
| BridgeEdits.DeleteLoopActions | bridge/core.py:174-213 | every delete is on the mapped copy of a deleted id for a matching forwarder |
| BridgeEdits.DeleteLoopComplete | bridge/core.py:174-213 | a loop that runs to the end deletes the copy of every mapped id for every forwarder |
| BridgeEdits.HandleDelete | bridge/core.py:158-213 | no forwarder for the channel means nothing happens. Every delete is on the mapped copy of a deleted id of a matching forwarder |
| Recovery.Replay | bridge/core.py:350-368 | the k-th handled message is the k-th fetched one, its peer resolved first: skipped when Discord is unhealthy for it, replayed otherwise. All are handled unless resolving a peer or the handler raised, which ends the loop and is flagged exactly then; a resolution raises only for the first message not handled. Every replay comes right after the delay |
| Recovery.UnhealthyReplaySkipsAll | bridge/core.py:350-363 | while Discord is unhealthy the state is untouched and every event is a skip or the resolution's exception; without that exception every fetched message is skipped |
| Recovery.RecoveryChannel | bridge/core.py:343-346 | a channel is used exactly when the first configuration entry with the forwarder's name has a non-zero `tg_channel_id`, and it is that id |
| Recovery.ReplayAll | bridge/core.py:334-372 | replays are always delayed and nothing sleeps inside the loop. The work ends with a caught exception exactly when a fetch, a peer resolution or the handler raised |
| Recovery.ReplayAllCaughtExactly | bridge/core.py:339-372 | the work is caught exactly when some record on a truthy channel has a raising fetch, resolving a fetched message's peer raised, or the handler raised on a replayed message |
| Recovery.ResolvedPeersNeverRaise | bridge/core.py:356-357 | when every peer resolves, no resolution exception occurs in a round |
| Recovery.ReplayAllFetches | bridge/core.py:339-349 | every fetch starts after a last-message record, on its forwarder's truthy channel |
| Recovery.ReplayAllCovers | bridge/core.py:339-368 | conversely, when nothing is caught, every last-message record whose forwarder has a truthy channel is fetched after its id, and that fetch is followed by the handling of every message it returned, in order, with nothing raised |
| Recovery.Tick | bridge/core.py:329-376 | a round always ends with exactly one sleep of the health-check interval. Without internet or a healthy Telegram it does nothing else, and replays always follow the delay |
| Recovery.TickFetchesAfterLast | bridge/core.py:335-349 | every fetch of a round starts right after the largest Telegram id mapped for its forwarder at the round's start |
| Recovery.TickReplaysEveryRecord | bridge/core.py:329-368 | a round with internet and a healthy Telegram that catches no exception fetches every forwarder of the history that has a truthy channel, after its last mapped id, and handles every message fetched |
| Recovery.UnhealthyDiscordChangesNothing | bridge/core.py:359-363 | a round in which Discord stays unhealthy replays nothing and leaves the state as it was |
| DiscordHealth.ReportStatus | bridge/discord/health.py:24-51 | the checks run in order (latency, cache, websocket, user), each with its own status string. The client is healthy exactly when all pass |
| DiscordHealth.StatusDeterminesHealth | bridge/discord/health.py:28-51 | the healthy flag is set exactly when the status is the healthy string |
| HealthHistory.AddHealthData | api/models/health_schema.py:45-54 | a timestamp that is not positive fails with the history unchanged. Otherwise the snapshot is stored under its timestamp, replacing only that entry |
| HealthHistory.MaxTimestamp | api/models/health_schema.py:63 | the largest timestamp is stored and no other exceeds it |
| HealthHistory.GetHealthData | api/models/health_schema.py:56-69 | an empty history fails, and only then. Otherwise the result is the snapshot with the largest timestamp |
| HealthHistory.NewestIsReturned | api/models/health_schema.py:51-69 | a snapshot at least as new as every stored one is what the history returns next |
| HealthHistory.OlderDoesNotChangeLatest | api/models/health_schema.py:54-69 | adding a snapshot older than the newest does not change what is returned |
| Events.AddSubscriber | bridge/events/events.py:21-25 | an absent subscriber is appended, and a present one changes nothing. A list without duplicates keeps none |
| Events.AddIdempotent | bridge/events/events.py:23-24 | adding twice is adding once |
| Events.FirstIndex | bridge/events/events.py:30 | `list.remove` removes the first occurrence |
| Events.RemoveSubscriber | bridge/events/events.py:27-31 | an absent subscriber is a no-op, and a present one is removed once. In a list without duplicates exactly it disappears |
| Events.RemoveUndoesAdd | bridge/events/events.py:21-31 | removing a subscriber just added gives the list back |
| Events.Notify | bridge/events/events.py:33-43 | subscribers are called in list order, and only a prefix of them. Notification ends early only when a subscriber raised |
| Events.NotifyOutcome | bridge/events/events.py:36-43 | notification ends quietly exactly when every subscriber updates. Otherwise the last one called raised, and a dispatcher exception is replaced by one with the fixed message |
| Events.ExceptionEquality | bridge/events/events.py:65-81 | dispatcher exceptions are equal exactly when their messages are, and never equal to another kind of exception; `__ne__` is the negation |

## Left out

- I/O is not modelled: JSON persistence of the mapping file and its cache, file opening and removal, media download. After a reload, keys become strings (bridge/history/history.py:47, 61); the store here stays in memory.
- `save_missed_message` is called at bridge/core.py:313 but not defined in bridge/history/history.py. The missed records are modelled as a list in the bridge's state.
- The UTF-16 to code-point conversion of entity offsets (bridge/utils.py:81-84) is modelled as clamping to the text length. This holds for text in the Basic Multilingual Plane.
- `str.lower()` folds only ASCII letters here, and `str.isspace()` uses a fixed character list.
- OpenAI sentiment rewriting (bridge/telegram_handler/core.py:77-79) is a foreign call. Its result is an `Option<string>` parameter.
- `list(set)` in `get_mention_roles` returns an order Python does not fix. The mentions are kept as a set.
- `discord_client.get_channel` returning `None` in the new-message handler is not modelled; the channel's server roles are a parameter.
- DiscordHealth.ReportStatus: latency is a `real`, so a NaN latency is not represented.
- `start_discord`, `start_telegram`, client login, listener registration and the first version's channel resolution are network set-up.
- forwarder.py, bridge/telegram/core.py, bridge/healtcheck.py, bridge/healtcheck_handler.py, the API routers and the other API models are process, HTTP and OS plumbing.
- Logging is not modelled.
- HistoryHandler's `fetch_messages_after` is a Telegram call. Its result is the `fetchAfter` parameter of the recovery round, and `None` stands for an exception it raises.
- `telegram_client.get_input_entity` in the recovery round is a Telegram call. Whether it returns for a message is the `peerResolves` parameter; the resolved peer itself is not used by the model.
- Concurrency is not modelled. The handlers and the recovery round run one at a time; interleaving at `await` points is not modelled.
- Recovery.Replay: a replayed message goes through the repaired `Bridge.HandleNewMessage`. As written, that handler would raise for every forwarder that forwards, and the broad `except` would end the round.
- Split.SplitMessage: a positive `max_length` is required. With a negative one, or with 0 and a message holding a non-whitespace character, the Python loop never ends; with 0 and an empty or all-whitespace message it returns `[""]`, which the model does not cover.
- Router.DecideV1: the first version's channel-to-route table is taken as given, not built from the dialogs.
- LegacyConfig.ValidateConfig: the top-level keys (`telegram_forwarders`, `openai_enabled` and the OpenAI keys) are taken as present; a missing one would raise `KeyError` before any forwarder is checked.
- TelegramHandler.LegacyHandleMessageMedia: an `OSError` from opening the downloaded file propagates in the legacy handler, which does not catch it; the model takes the download's outcome as given.
- Markdown.ConvertCorrectionExact: it proves the offset correction equals what was inserted, not that every entity lands on its text. An entity nested inside a text URL's range is still misplaced with the repaired `+ 6`, because the correction only counts insertions before the current entity.
- Config.LoadForwarder: tag entries are taken to be dicts, and pydantic's coercion of the other fields is not modelled; only the forwarder list of the file is loaded, not the other sections.
- Config.LoadForwarder: its failure reports the error kinds the validators check. Pydantic drops a field that failed from what its root validators see, so the exact error list it reports can differ; whether a forwarder loads does not.
- LegacyConfig.SharedHashtagWarnings: it requires every channel id to be an `int`. The loop only runs after the forwarder loop has checked that.

## Findings

| source | as written | input that shows it | evidently intended | confidence | as-written member | corrected member |
|---|---|---|---|---|---|---|
| bridge/core.py:239-285 | `message_forward_hashtags` is assigned only inside the filter branches but read for every forwarder that forwards. `mention_override` is passed as a list, and the markdown call has one argument too many | a single forwarder with `forward_everything: true` and no tag lists: the name is unbound when `get_mention_roles` is called | read the hashtags for every forwarder, pass the override map keyed by lowercased tag, and convert with two arguments | not executed | Bridge.HandleForwardersAsWritten | Bridge.HandleNewMessage |
| bridge/utils.py:99-109 | a text URL inserts `" ["`, `"]("` and `") "` (six characters plus the url) but adds `len(url) + 4` to the offset correction | text `ab`, a text URL on `a` then bold on `b`: the result is ` [a](u**)** b` | add `len(url) + 6`, giving ` [a](u) **b**` | not executed | Markdown.AsWrittenMisplacesAfterTextUrl | Markdown.ConvertCorrectionExact |
| bridge/config/config.py:75-87 | `if val < 0: assert val < 0` never fails, so a negative channel id is accepted | a forwarder on `tg_channel_id: -5` | refuse negative ids, as the messages say | not executed | Config.NegativeChannelIdAccepted | Config.ForwarderAcceptedIffWellFormed |
| bridge/config/config.py:326-370 | the duplicate-pair and shared-hashtag rules are root validators of `ConfigYAMLSchema`, but `Config.from_yaml` and `Config.load_instance` build `Config`, which has none | two forwarders on the same channel pair load without complaint | apply both rules when the configuration is loaded | not executed | Config.DuplicatePairLoads | Config.LoadConfig |
| telegram_handler.py:54-63 | the `return` is indented inside the `else`, so the link branch returns `None` | a media message with a URL entity whose part was sent: no mapping is saved | return what was sent on both branches, as the bridge's handler does | not executed | TelegramHandler.LegacyHandleMessageMedia | TelegramHandler.HandleMessageMedia |
| telegram_handler.py:10 | imports `telegram_entities_to_markdown` from `utils`, which does not define it | importing the legacy handler raises `ImportError`, so `process_message_text` never runs | import the first version's converter (v1/app_v1.py:280) | not executed | TelegramHandler.LegacyTextImportFails | TelegramHandler.ProcessMessageTextLegacy |
| bridge/telegram_handler/core.py:88 | `telegram_entities_to_markdown(text, entities, strip_off_links)` calls a two-parameter function | any message that reaches the markdown step raises `TypeError` | call it with the text and the entities | not executed | TelegramHandler.ProcessMessageTextAsWritten | TelegramHandler.ProcessMessageText |
