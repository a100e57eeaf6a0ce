# my-discord-bot, modelled in Dafny

This project models the logic of a Discord bot. The bot plays music from an audio node (Lavalink), announces upcoming YouTube live streams, posts Steam giveaways from a deals feed, downloads Pixiv images, and handles a few administrative commands. It covers two generations of the code:

- the first bot under `scripts/`;
- the slash-command cogs under `src/`.

Every command and event handler is one atomic step. The chat platform, the audio node, YouTube, gallery-dl, the deals feed and the database driver are outside the model:

- what a handler sends or asks for is an `Effect`, `Reply` or `Send` value it returns;
- what it learns from those services is a parameter: search results, channel members, process status codes, feed entries, API answers, and whether an insert is rejected.

Modules follow the source files:

| module | source file |
|---|---|
| `Music` | `src/cogs/music.py` |
| `ScriptsMusic` | `scripts/modules/music.py` |
| `Subscription` | `src/my_discord_bot/cogs/subscription.py` |
| `Steam` | `src/cogs/steam.py` |
| `Guid` | `src/models/_guid.py` |
| `Ai` | `src/my_discord_bot/cogs/ai.py` |
| `CogBase` | `src/cogs/_cog_base.py` |
| `OldCogBase` | `src/cogs/cog_base.py` |
| `Utility` | `scripts/utility.py` |
| `General` | `src/cogs/general.py` |
| `BotGeneral` | `src/my_discord_bot/cogs/general.py` |
| `Meta` | `src/cogs/meta.py` |

Two modules support the rest:

- `Wrappers` holds `Option` and `Result`.
- `PyText` holds the Python built-ins the commands use on text:
  - `str.lower` and `str.upper` on ASCII letters;
  - `str(n)`;
  - `int(s)` on ASCII digits, with sign, surrounding whitespace and `_` separators;
  - `min` and `abs`;
  - the leftmost-match search that `re.search` performs.

State that the source changes in place is a class:

- `Music.Player` and `Music.MusicCog` hold the queue, the current track, the paused flag, the loop mode, the registry of players per guild, and the node's retry counter.
- `ScriptsMusic.Player` and `ScriptsMusic.MusicCog` are the same for the first bot.
- `Steam.SteamCog` holds the blacklist and giveaway-history tables.
- `Subscription.SubscriptionCog` holds the guild and subscription tables.
- `Meta.MetaCog` holds the guild table.
- `Ai.AiCog` holds the model name.
- `BotGeneral.GalleryConfig` holds gallery-dl's settings.

The other members are functions, with lemmas that state their properties.

**Where the guild's upload limit comes from.** `src/my_discord_bot/cogs/general.py` takes it from `_cog_base.get_max_file_size` of its own package. `src/my_discord_bot/cogs/_cog_base.py` is not part of this model. `BotGeneral.Pixiv` uses `CogBase.GetMaxFileSize` from `src/cogs/_cog_base.py` in its place.

**Where the code and its documentation disagree, the model follows the code:**

- `ScriptsMusic.MusicCog.Show` lists the whole queue, although its docstring says ten entries.
- `General.Forex` accepts amounts up to 1e10, although its messages say 1,000,000,000.
- `src/cogs/general.py:62` calls `get_max_file_size` with a boost count. The cog base it imports (`src/cogs/cog_base.py`) defines only `getMaxFileSize`. `General.Pixiv` therefore takes the limit in MiB as a parameter.

## Model

| member | source | states |
|---|---|---|
| CogBase.Tier | src/cogs/_cog_base.py:48-54 | the upload tier is 25, 50 or 100 MiB |
| CogBase.TierMonotone | src/cogs/_cog_base.py:48-54 | more boosts never lower the tier; it is 25 exactly below 7 boosts and 100 exactly from 14 |
| CogBase.GetMaxFileSize | src/cogs/_cog_base.py:36-59 | 25 outside a guild; in a guild never above the tier, and either min(tier, abs(MAX_FILE_SIZE)) with "25" as the default, or the tier when the value does not parse |
| CogBase.UnsetMaxFileSizeGives25 | src/cogs/_cog_base.py:57 | with MAX_FILE_SIZE unset, every guild, and no guild, gets 25 |
| CogBase.MaxFileSizeOfNumber | src/cogs/_cog_base.py:56-57 | a limit written as the decimal n gives min(tier, abs(n)) |
| CogBase.CheckCooldownFactory | src/cogs/_cog_base.py:14-26 | the check is None exactly for the bot owner and one use per `seconds` for everyone else |
| OldCogBase.Tier | src/cogs/cog_base.py:27-32 | the earlier tiers are 8, 16 or 100 MiB |
| OldCogBase.TierMonotone | src/cogs/cog_base.py:28-32 | more boosts never lower the earlier tier |
| OldCogBase.GetMaxFileSize | src/cogs/cog_base.py:21-37 | never above the tier; the tier when the variable is missing or does not parse, else min(tier, abs(value)) |
| OldCogBase.DefaultNitroCount | src/cogs/cog_base.py:21 | the default boost count of 0 allows at most 8 MiB |
| Utility.GetEnvVar | scripts/utility.py:60-68 | a key in `.env` wins even when its value is None or empty; otherwise the process environment, None when unset |
| Utility.GetMaxFileSize | scripts/utility.py:70-87 | never above the tier; the tier on any failure, else min(tier, abs(value)) of the `.env`-first lookup |
| Utility.DotenvShadowsEnvironment | scripts/utility.py:66-87 | a `.env` key without a value hides the process environment and gives the tier |
| Utility.AgreesWithCogBase | scripts/utility.py:70-87 | without `.env` entries the first bot's rule equals the earlier cog base's for every boost count and environment |
| Guid.HexDigits | src/models/_guid.py:33-36 | `"%.32x"` renders exactly `width` lower-case hexadecimal digits |
| Guid.Hex32 | src/models/_guid.py:33-36 | a UUID's integer renders as exactly 32 lower-case hexadecimal digits |
| Guid.HexValueOfHexDigits | src/models/_guid.py:33-36 | the zero-padded rendering reads back as the same number |
| Guid.Hex32Injective | src/models/_guid.py:31-36 | distinct UUIDs are stored as distinct CHAR(32) values |
| Guid.ParseUuid | src/models/_guid.py:43 | `uuid.UUID(s)`, as used here and at line 33, succeeds exactly when 32 characters remain after "urn:", "uuid:", the surrounding braces and every '-' are removed and `int(·, 16)` reads them (whitespace, a '+', a `0x` prefix and single underscores included); the UUID is that integer |
| Guid.ParseHexInt | src/models/_guid.py:43 | `int(s, 16)` succeeds only with a magnitude below 16 to the number of characters |
| Guid.ParseHexIntWithoutMinus | src/models/_guid.py:43 | `int(s, 16)` of a text without '-' is never negative, so the range check of `uuid.UUID` cannot fail after the hyphens are gone |
| Guid.ParseHexIntOfDigits | src/models/_guid.py:43 | `int(h, 16)` of plain lower-case digits is their value |
| Guid.ParseHexIntOfPrefixedDigits | src/models/_guid.py:43 | `int("0x" + h, 16)` of plain lower-case digits is their value |
| Guid.ParseOfPlainHex | src/models/_guid.py:43 | 32 plain hexadecimal digits parse as their value |
| Guid.ParseOfPrefixedHex | src/models/_guid.py:43 | `uuid.UUID("0x" + h)` of 30 digits is accepted, as the UUID of their value |
| Guid.ParseOfHex32 | src/models/_guid.py:33-43 | the stored 32-digit form parses back to the same UUID |
| Guid.UndecorateCanonical | src/models/_guid.py:30 | removing the hyphens from `str(u)` leaves u's 32 digits |
| Guid.ParseOfCanonical | src/models/_guid.py:30-43 | `uuid.UUID(str(u)) == u` |
| Guid.LoadDialectImpl | src/models/_guid.py:20-24 | a native UUID exactly on PostgreSQL, CHAR(32) everywhere else |
| Guid.ProcessBindParam | src/models/_guid.py:26-36 | None passes through; PostgreSQL binds `str(value)`; elsewhere 32 lower-case digits, and a string binds as the UUID it parses to, failing exactly when it does not parse |
| Guid.ProcessResultValue | src/models/_guid.py:38-44 | None passes through, a UUID is returned unchanged, a string succeeds exactly when it parses and gives that UUID |
| Guid.RoundTripOffPostgres | src/models/_guid.py:26-44 | off PostgreSQL, whatever binds reads back as the UUID it stands for, and None as None |
| Guid.RoundTripOnPostgres | src/models/_guid.py:29-44 | on PostgreSQL a UUID bound as `str(u)` reads back as u, from text or from a native UUID |
| Ai.PySlice | src/my_discord_bot/cogs/ai.py:65-69 | Python's clamped slice is no longer than its bounds allow, and empty from the end of the text on |
| Ai.CeilDiv | src/my_discord_bot/cogs/ai.py:68 | `math.ceil(n / d)` is the least q with q * d >= n |
| Ai.Covered | src/my_discord_bot/cogs/ai.py:65-69 | the length that the first n pieces cover never exceeds the text's length |
| Ai.Chat | src/my_discord_bot/cogs/ai.py:65-69 | the sends start with `message[:2000]`, concatenate to the message, and are each at most 2000 characters and the k-th slice; one send up to 2000 characters, else ceil(len/2000)+1 sends, the last of them empty |
| Ai.ChatWithoutEmptyTail | src/my_discord_bot/cogs/ai.py:65-69 | the corrected chunking: the same slices without the trailing one; one send up to 2000 characters, else ceil(len/2000) sends, none empty for a non-empty text |
| Ai.AiCog.constructor | src/my_discord_bot/cogs/ai.py:23 | the model name is OPENAI_MODEL_NAME, or "" when unset |
| Ai.AiCog.ChatModel | src/my_discord_bot/cogs/ai.py:75-90 | with no name it reports and changes nothing; a non-owner is refused and changes nothing; the owner sets exactly the given name |
| General.DigitRun | src/cogs/general.py:49 | `\d+` reads the maximal run of ASCII digits |
| General.PixivAt | src/cogs/general.py:49 | a match at i occurs in the text at i, starts with the host, ends in a digit and is not followed by one |
| General.PixivLink | src/cogs/general.py:49-56 | no link exactly when the pattern matches nowhere; otherwise the match at the first index where there is one |
| General.ArtworkStartOfPath | src/cogs/general.py:49 | the number starts right after "en/artworks/" or "artworks/" |
| General.DigitRunOfNumber | src/cogs/general.py:49 | digits followed by a non-digit, or by nothing, are read whole |
| General.HostAndPathOfLink | src/cogs/general.py:49 | behind any prefix, an artwork link shows the host where the prefix ends and its path after it |
| General.PixivAtOfArtworkPage | src/cogs/general.py:49 | an artwork page link matches where its host starts, up to the end of its number |
| General.NoHostInPrefix | src/cogs/general.py:49 | no match can start inside a prefix that does not hold the host, since the host's only '/' is its last character |
| General.PixivLinkOfArtworkPage | src/cogs/general.py:49-56 | every artwork page link, with or without "en/", behind any text without the host and followed by anything that does not continue its number, is accepted as host, path and number |
| General.PixivLinkOfEnglishPage | src/cogs/general.py:49-56 | "https://www.pixiv.net/en/artworks/123?p=1" is accepted as "www.pixiv.net/en/artworks/123" |
| General.ArtworksInMatch | src/cogs/general.py:49 | every match contains "artworks/" |
| General.PixivLinkNeedsArtworks | src/cogs/general.py:49-54 | a link without "artworks/" is rejected |
| General.PixivAtIsArtworkPage | src/cogs/general.py:49 | every match is the host, "en/artworks/" or "artworks/", and a non-empty run of digits |
| General.PixivLinkIsArtworkPage | src/cogs/general.py:49-56 | an accepted link contains an artwork page link (host, optional "en/", "artworks/", digits) and that is the text extracted; with PixivLinkOfArtworkPage this is both directions of "accepted iff it contains the pattern" |
| General.Sizes | src/cogs/general.py:72 | the two groups of the size-error pattern are non-empty |
| General.SizeErrorAt | src/cogs/general.py:72 | a size-error match at i yields two non-empty groups |
| General.SizeError | src/cogs/general.py:71-73 | no sizes exactly when the pattern matches nowhere; otherwise the sizes of the leftmost match, the one `re.search` reports |
| General.SizesOf | src/cogs/general.py:72 | "A > B)" with digit strings A and B yields (A, B) |
| General.SizeErrorAtOfLine | src/cogs/general.py:72 | gallery-dl's size-error line matches at its start with groups A and B |
| General.SizeErrorOfLine | src/cogs/general.py:71-73 | the search finds the image's size first and the maximum second |
| General.LineLength | src/cogs/general.py:82 | `.*` never crosses a line break and stops only at one or at the end |
| General.DownloadedAt | src/cogs/general.py:82 | `pixiv.*` matches at i exactly where "pixiv" occurs, and the match runs to the end of that line |
| General.DownloadedPath | src/cogs/general.py:82 | the downloaded file's name: no match exactly when "pixiv" occurs nowhere, otherwise the leftmost match |
| General.Pixiv | src/cogs/general.py:41-98 | a rejected link gets the invalid-link reply and runs nothing; otherwise the command is for the matched link (GalleryDlCommand is the command template of line 62), a failure reports the sizes of a size error or else echoes stderr, and success uploads or raises |
| General.PixivReportsSizes | src/cogs/general.py:70-77 | a failed download whose stderr is the size-error line replies with exactly those two sizes |
| General.ForexSymbol | src/cogs/general.py:119-123 | the start currency is dropped exactly when it is "usd" in any case |
| General.Forex | src/cogs/general.py:117-153 | the deferral comes first; the range reply exactly when the amount is not in (0, 1e10); a conversion only for an amount in range with a quote |
| General.ForexFromDollars | src/cogs/general.py:119-123 | "USD" and "usd" give the target's own symbol; "HKD" is kept |
| BotGeneral.StatusReplies | src/my_discord_bot/cogs/general.py:96-144 | status 0 uploads the file, or without a file gives the failure with the range hint when the image number is above 1; status 4 reports the file too big with the guild's limit in MiB, 8 an invalid link, 16 the login failure; an unknown status logs and gives the generic reply; no failure uploads |
| BotGeneral.RangeHintIffLaterImage | src/my_discord_bot/cogs/general.py:99-107 | the out-of-range hint appears exactly when the image number is above 1 |
| BotGeneral.FailureRepliesDiffer | src/my_discord_bot/cogs/general.py:119-144 | statuses 4, 8, 16 and any other give four different replies |
| BotGeneral.ConfiguredSettings | src/my_discord_bot/cogs/general.py:65-91 | the image range is `str(image_number)` in both extractor scopes, the size limit is the guild's maximum in MiB, and no other setting changes |
| BotGeneral.GalleryConfig.Set | src/my_discord_bot/cogs/general.py:65-91 | `config.set` replaces exactly the one setting |
| BotGeneral.Pixiv | src/my_discord_bot/cogs/general.py:42-144 | a rejected link replies invalid, downloads nothing and leaves the settings; an accepted one configures gallery-dl, downloads the matched link and replies by status after the deferral |
| Meta.ToggleBotChannel | src/cogs/meta.py:124-142 | the toggle keeps the set of guild rows |
| Meta.ToggleFlipsMark | src/cogs/meta.py:124-142 | the channel is marked afterwards exactly when it was not before, the reply says which way, and every other column and guild is kept |
| Meta.ToggleTwice | src/cogs/meta.py:124-142 | toggling twice from one channel restores whether it is marked |
| Meta.ToggleOfUnknownGuild | src/cogs/meta.py:126-140 | a guild without a row stores nothing, yet is told the channel was set |
| Meta.MetaCog.SetBotChannel | src/cogs/meta.py:124-142 | the new table and the reply are the toggle's |
| Meta.WelcomeUpdate | src/cogs/meta.py:186-213 | a message over 2000 characters is refused with no change; no other guild changes |
| Meta.WelcomeStoredIsPreviewed | src/cogs/meta.py:190-213 | an empty message clears the stored one; an accepted one is stored unescaped and previewed exactly as stored after the caller's mention; a codec failure raises with no change |
| Meta.MetaCog.SetWelcomeMessage | src/cogs/meta.py:178-213 | the new table and the reply are those of the welcome update |
| Meta.SignatureAppend | src/cogs/meta.py:103-108 | the title's parameter part follows the parameters in order |
| Meta.SignatureOfOne | src/cogs/meta.py:104-108 | a parameter is shown as ` [name]` exactly when required, else ` <name>` |
| Meta.FieldOfPlaceholder | src/cogs/meta.py:109-115 | a parameter field keeps the parameter's name and shows "No description (yet)." exactly when the description is empty (or is that text); otherwise its description |
| Meta.DescribeCommand | src/cogs/meta.py:97-116 | the card's title is `/name` followed by the signature, with one field per parameter in order |
| Meta.CommandNames | src/cogs/meta.py:84-86 | a cog's field value is empty exactly when the cog has no commands |
| Meta.CogFieldsMembers | src/cogs/meta.py:83-89 | a cog is listed, with its command names, exactly when it has application commands |
| Meta.ListCogs | src/cogs/meta.py:83-89 | the loop builds the fields of exactly the cogs with commands, in order |
| Meta.Help | src/cogs/meta.py:66-117 | no name lists the cogs; an unknown name is reported as not found; a known one gets its card |
| Meta.Populate | src/cogs/meta.py:234-243 | every intermediate edit is exactly 2000 characters long |
| Meta.PopulateShort | src/cogs/meta.py:237-243 | while the mentions fit, no intermediate edit is issued and the buffer holds every human's mention in order |
| Meta.PopulateThread | src/cogs/meta.py:218-244 | a non-thread, or a guild of 1000 members or more, gets one refusal and nothing else; otherwise the notice, the "Processing..." message, the edits of the buffer loop, the final buffer and "Thread populated." |
| Meta.EditsOfAppend | src/cogs/meta.py:241-244 | the edits of successive buffers follow one another |
| Steam.OpenGiveawayExamples | src/cogs/steam.py:95 | the test is case-sensitive: "[giveaway] X" is a giveaway and "[Giveaway] X" is not; a summary containing "expired" is skipped |
| Steam.DateAt | src/cogs/steam.py:91 | `\d{4}-\d{2}-\d{2}` at i is the ten characters found there |
| Steam.ExpiryAt | src/cogs/steam.py:91 | `[eE]xpires? on (\d{4}-\d{2}-\d{2})` matches at i exactly when "e" or "E", then "xpire", an optional "s" and " on " are followed by a date; the result is that date |
| Steam.SearchExpiryIsLeftmost | src/cogs/steam.py:91-104 | no date exactly when the pattern matches nowhere; otherwise the date of the leftmost match |
| Steam.DateOfExample | src/cogs/steam.py:91 | the date pattern reads "2024-01-31" out of "Expires on 2024-01-31." |
| Steam.ExpiryAtOfExample | src/cogs/steam.py:91 | the expiry pattern matches "Expires on 2024-01-31." at its start |
| Steam.ExpiryOfExample | src/cogs/steam.py:100-104 | the summary "Expires on 2024-01-31." gives the expiry date "2024-01-31" |
| Steam.Recorded | src/cogs/steam.py:95-118 | an entry adds a record exactly when it is an open giveaway whose insert the database accepts |
| Steam.NewRecordsMembers | src/cogs/steam.py:94-118 | a record is added exactly when some entry is an open giveaway the database accepted; a rejected insert does not stop the scan |
| Steam.SteamCog.CheckGiveaway | src/cogs/steam.py:89-119 | the history grows by exactly the new records of the feed, in feed order; the blacklist is untouched |
| Steam.Filtered | src/cogs/steam.py:150-161 | the filter never yields more giveaways than the query returned |
| Steam.FilteredMembers | src/cogs/steam.py:150-161 | exactly the giveaways whose domain contains no keyword pass |
| Steam.FilteredAppend | src/cogs/steam.py:152-161 | the filter keeps the original order |
| Steam.FilteredWithoutKeywords | src/cogs/steam.py:155-161 | with no keywords every giveaway passes |
| Steam.FilterBlacklisted | src/cogs/steam.py:150-161 | the flag-and-break loop computes exactly the filter |
| Steam.GuildKeywords | src/cogs/steam.py:148-150 | a keyword is listed exactly when some row of the guild has it |
| Steam.GuildRows | src/cogs/steam.py:74-77 | a row is the guild's exactly when it is in the table with that guild id |
| Steam.RemoveKeyword | src/cogs/steam.py:48-51 | the deletion as written: exactly the rows with another keyword stay, in every guild |
| Steam.RemoveKeywordReachesOtherGuilds | src/cogs/steam.py:44-51 | as written, removing a keyword in one guild removes it from another guild's list too |
| Steam.RemoveGuildKeyword | src/cogs/steam.py:44-51 | the corrected deletion: exactly the calling guild's rows with the keyword go |
| Steam.RemoveGuildKeywordKeepsOtherGuilds | src/cogs/steam.py:44-51 | after the corrected removal, other guilds' rows are unchanged and the keyword is gone from the caller's list |
| Steam.ListingMsg | src/cogs/steam.py:79-85 | the listing starts with the header naming the guild; a guild without rows gets the "Empty" hint after it |
| Steam.Listing | src/cogs/steam.py:79-86 | the loop that appends each row's `rowid:***keyword***` with a line break and cuts the last break computes exactly the listing |
| Steam.ListingShowsEveryRow | src/cogs/steam.py:79-83 | every row of the guild shows in its listing |
| Steam.JoinLinesShowsEveryRow | src/cogs/steam.py:81-83 | each row's line occurs in the joined lines |
| Steam.NextRowid | src/cogs/steam.py:62-65 | the implicit rowid of the insert: one past the largest rowid of the table, 1 when it is empty, so above every existing rowid |
| Steam.SteamCog.Blacklist | src/cogs/steam.py:33-86 | the response is deferred first; no keyword only lists; the keyword is lower-cased; removal deletes the guild's rows with it and says whether there was one; a failed insert reports and lists nothing; otherwise the row is added under the next rowid; then the guild's listing |
| Steam.SteamCog.RemoveCommand | src/cogs/steam.py:43-58 | the guild's rows with the keyword are deleted and the reply says whether there was one |
| Steam.SteamCog.AddCommand | src/cogs/steam.py:60-67 | one row for the keyword and guild is appended under the next rowid, which no existing row has |
| Steam.SteamCog.GetNewGiveaway | src/cogs/steam.py:121-164 | None without a row or a bot channel; otherwise the channel, with None for no new giveaways, else the new giveaways that pass the guild's blacklist |
| Steam.EmbedOf | src/cogs/steam.py:182-192 | the embed carries the giveaway's title, link and publish time, and its expiry date exactly when that date is present and not empty |
| Steam.Posts | src/cogs/steam.py:177-194 | one post per giveaway, in order, with its embed |
| Steam.GuildEffectsRespectBlacklist | src/cogs/steam.py:148-194 | every giveaway a guild is sent passed that guild's blacklist |
| Steam.SteamCog.GuildTask | src/cogs/steam.py:169-194 | one guild's turn of the giveaway loop: a warning without a bot channel, else the posts of its filtered giveaways to a channel that exists |
| Steam.SteamCog.GiveawayTask | src/cogs/steam.py:166-194 | one run records the feed's new giveaways and does each guild's turn in order |
| Subscription.Collected | src/my_discord_bot/cogs/subscription.py:95-111 | the collected ids, when the publish times parse, are never more than the playlist's items; what they are exactly is stated by the lemmas below |
| Subscription.WellFormedIds | src/my_discord_bot/cogs/subscription.py:95-99 | the reference definition the lemmas compare with: the ids of the items that have a publish time and a video id, in item order |
| Subscription.CollectedOfNewerFront | src/my_discord_bot/cogs/subscription.py:95-111 | a front whose well-formed items are all newer contributes all their ids, in order, ahead of what the rest contributes, and an abort in the rest aborts the whole |
| Subscription.CollectedIsLeadingRun | src/my_discord_bot/cogs/subscription.py:95-111 | the collected ids are exactly those of the leading run of newer items before the first older one, in item order |
| Subscription.CollectedOfAllNewer | src/my_discord_bot/cogs/subscription.py:95-109 | when every well-formed item is newer, every id is collected, in item order |
| Subscription.CollectedAbortsAtUnparseable | src/my_discord_bot/cogs/subscription.py:102-106 | a publish time `strptime` rejects, reached before any older item, aborts the subscription (None) |
| Subscription.CollectedAreNewer | src/my_discord_bot/cogs/subscription.py:95-111 | every collected id is that of a well-formed item published strictly after `last_checked_at` |
| Subscription.CollectedStopsAtOlder | src/my_discord_bot/cogs/subscription.py:102-111 | the first well-formed item not newer ends the collection; what follows is never read |
| Subscription.CollectVideoIds | src/my_discord_bot/cogs/subscription.py:95-111 | the loop with its `break` computes exactly the collected ids |
| Subscription.RoleTag | src/my_discord_bot/cogs/subscription.py:146-148 | the tag is `<@&target>` when a non-empty announcement target is set, and "@everyone" exactly otherwise |
| Subscription.Announcement | src/my_discord_bot/cogs/subscription.py:48-53 | MESSAGE_TEMPLATE filled in: it starts with the role tag and ends with the watch link of the video (LinkLine, lines 52-53) |
| Subscription.Announcements | src/my_discord_bot/cogs/subscription.py:127-153 | never more announcements than videos in the response |
| Subscription.AnnouncementsReverse | src/my_discord_bot/cogs/subscription.py:128 | announcements go out in reverse response order |
| Subscription.AnnouncementsMembers | src/my_discord_bot/cogs/subscription.py:128-153 | exactly the scheduled, not yet started streams are announced |
| Subscription.Announce | src/my_discord_bot/cogs/subscription.py:127-153 | the loop with its two `continue`s sends exactly the announcements |
| Subscription.Step | src/my_discord_bot/cogs/subscription.py:63-156 | only a subscription with a resolvable bot channel is checked, and all its messages go to that channel |
| Subscription.SendsTo | src/my_discord_bot/cogs/subscription.py:144-153 | one send per text, in order, to the one channel |
| Subscription.Outcomes | src/my_discord_bot/cogs/subscription.py:62-156 | each subscription's outcome is its own step |
| Subscription.Scan | src/my_discord_bot/cogs/subscription.py:62-156 | the scan gives back one row per subscription |
| Subscription.ScanOnlyStamps | src/my_discord_bot/cogs/subscription.py:62-156 | the scan changes no subscription but its `last_checked_at`; a checked subscription before which no playlist lacked "items" gets now (line 113), and one skipped or never reached keeps its row |
| Subscription.StampsWithoutVideos | src/my_discord_bot/cogs/subscription.py:113-127 | a video lookup that raises or has no "items" sends nothing, yet the subscription was already stamped with now |
| Subscription.ScanStopsAtNoItems | src/my_discord_bot/cogs/subscription.py:89-93 | a playlist answer without "items" ends the whole scan: later subscriptions keep their rows and get no messages |
| Subscription.CheckOne | src/my_discord_bot/cogs/subscription.py:63-156 | the loop body for one subscription computes its step |
| Subscription.ScanSubscriptions | src/my_discord_bot/cogs/subscription.py:62-156 | the loop with its `break` computes exactly the scan |
| Subscription.ScanKeepsValid | src/my_discord_bot/cogs/subscription.py:62-156 | the scan keeps every subscription's guild and YouTube channel id |
| Subscription.SubscriptionCog.CheckSubscription | src/my_discord_bot/cogs/subscription.py:36-156 | without an API key nothing happens; otherwise the table becomes the scan's |
| Subscription.SubscriptionCog.Subscribe | src/my_discord_bot/cogs/subscription.py:169-256 | a non-integer role id is refused before any work; a guild without a bot channel is refused after the deferral; a subscribed channel is unsubscribed with the reply naming its channel; otherwise the lookup decides the table and the reply |
| Subscription.SubscriptionCog.FindSubscription | src/my_discord_bot/cogs/subscription.py:189-205 | finds the guild's subscription to the channel exactly when there is one |
| Subscription.SubscriptionCog.Unsubscribe | src/my_discord_bot/cogs/subscription.py:211-215 | the table loses exactly the rows for the channel |
| Subscription.SubscriptionCog.AddSubscription | src/my_discord_bot/cogs/subscription.py:221-256 | the table and reply are those of the channel lookup |
| Subscription.GuildKey | src/my_discord_bot/cogs/subscription.py:189-205 | the key found is that of the guild row with the guild id |
| Subscription.Unsubscribed | src/my_discord_bot/cogs/subscription.py:212-214 | the rows that stay are exactly those for other channels |
| Subscription.UnsubscribedKeepsValid | src/my_discord_bot/cogs/subscription.py:211-219 | unsubscribing keeps every row's guild reference and the channel ids distinct, and leaves no row for the channel |
| Subscription.ToggleRestores | src/my_discord_bot/cogs/subscription.py:211-252 | subscribing to a channel not yet in the table and then unsubscribing from it restores the table |
| Music.ParseEndReason | src/cogs/music.py:167 | FINISHED and STOPPED are recognised exactly when the upper-cased reason is that word; anything else is kept as is |
| Music.ParseEndReasonIgnoresCase | src/cogs/music.py:167 | the test does not depend on letter case |
| Music.SameChannel | src/cogs/music.py:112-124 | true when the bot has no voice client; otherwise exactly when the caller is in the bot's channel |
| Music.PlayGuard | src/cogs/music.py:205-218 | `play` proceeds exactly when the node exists (the decorator of lines 18-39), the caller is in voice and the same-channel check holds; otherwise the offline, not-in-voice or wrong-channel reply, in that order |
| Music.ControlGuard | src/cogs/music.py:340-350 | a control command proceeds exactly when the node exists (the decorator of lines 18-39), the bot has a voice client and the caller is in its channel, else the offline, no-voice-client or wrong-channel reply, in that order; the same guard opens the loop, skip and quit commands |
| Music.IsAlone | src/cogs/music.py:101-106 | the flag loop finds the channel alone exactly when no member is human; an empty channel counts as alone (the same loop is at lines 145-156) |
| Music.SearchTracks | src/cogs/music.py:231-233 | a playlist contributes its selected track, or the first when `selected` is negative |
| Music.NewPlayer | src/cogs/music.py:235-238 | a new player is idle with an empty queue |
| Music.QueueGet | src/cogs/music.py:169 | (assumed queue behaviour) a non-empty queue always hands out a track |
| Music.Enqueue | src/cogs/music.py:244-254 | a playing player gets the track at the back of the queue; an idle one starts it; channel, paused flag and mode are kept |
| Music.EnqueueAllIsFifo | src/cogs/music.py:244-254 | into an idle player the first request starts and the rest wait in request order |
| Music.EnqueueAllWhilePlaying | src/cogs/music.py:244-254 | while playing, requests are appended in order |
| Music.Advance | src/cogs/music.py:167-181 | the player leaves exactly when it is in normal mode with an empty queue; loop mode replays; normal mode plays the front of the queue |
| Music.LoopReplays | src/cogs/music.py:167-181 | in loop mode the same track is replayed however often it finishes |
| Music.NormalAdvanceWalksQueue | src/cogs/music.py:167-181 | in normal mode the n-th finish plays the n-th queued track and holds the rest |
| Music.Line | src/cogs/music.py:319-328 | the now-playing line shows the track's title, link and requester, and minutes and seconds (below 60) that make up the track's own length in whole seconds |
| Music.QueuedLine | src/cogs/music.py:308-316 | a queued track's line, as written: its own title, link, requester and seconds, but the minutes of the current track; it equals the track's own line exactly when the two tracks' minutes agree |
| Music.QueuedLineBorrowsCurrentMinutes | src/cogs/music.py:308-316 | as written, a queued 1:10 track behind a 3:00 track is listed as 3:10 |
| Music.Player.constructor | src/cogs/music.py:237 | joining a channel creates an idle player there |
| Music.Player.PutWait | src/cogs/music.py:244 | the track joins the back of the queue |
| Music.Player.Request | src/cogs/music.py:244-254 | the new state is that of `Enqueue`, and a track starts exactly when the player was idle |
| Music.Player.Get | src/cogs/music.py:169 | the new state and track are those of `QueueGet` |
| Music.Player.Play | src/cogs/music.py:181 | the track becomes current; nothing else changes |
| Music.Player.TrackEnded | src/cogs/music.py:163-166 | the current track is gone; nothing else changes |
| Music.Player.SetPaused | src/cogs/music.py:352-357 | only the paused flag changes |
| Music.Player.SetMode | src/cogs/music.py:376-388 | only the loop mode changes |
| Music.MusicCog.constructor | src/cogs/music.py:45-51 | no players and a retry counter of 0 |
| Music.MusicCog.RemovePlayer | src/cogs/music.py:436 | `disconnect` drops exactly that guild's player (also at lines 110, 159, 174 and 187) |
| Music.MusicCog.ConnectNodeAttempt | src/cogs/music.py:56-81 | reaching CONNECTED resets the counter to 0 and returns true; a failure or an exception returns false and changes nothing |
| Music.MusicCog.ObserveNodeStatus | src/cogs/music.py:87 | the node's state changes on its own; the counter and players are kept |
| Music.MusicCog.CheckNodeConnection | src/cogs/music.py:83-91 | an attempt is made exactly when no node exists and fewer than 5 are spent, counting it first; the counter never exceeds 5 |
| Music.MusicCog.RunHealthChecks | src/cogs/music.py:83-91 | without a success, at most the attempts left before the cap are made, and none once the cap is reached |
| Music.MusicCog.ConnectMusic | src/cogs/music.py:438-459 | a non-owner is refused without any attempt; the owner's attempt ignores the counter |
| Music.MusicCog.OnTrackStart | src/cogs/music.py:139-160 | without a player it raises; with a human in the channel the track is announced (NowPlayingMsg is the template of lines 148-151, with " (looping)" exactly in loop mode); with none the bot says so and leaves |
| Music.MusicCog.OnTrackEnd | src/cogs/music.py:162-188 | FINISHED or STOPPED in any case plays the next track as `Advance` says, or announces the end and leaves; then a missing player is ignored; any other reason logs, and announces a failure and leaves (or raises without a player) |
| Music.MusicCog.LeaveInactiveVoiceChannels | src/cogs/music.py:93-110 | exactly the players whose channel has no human are dropped, each with "Quitting because I am alone..." sent to its channel and then a disconnect; the others are unchanged |
| Music.MusicCog.Play | src/cogs/music.py:196-254 | after the guards, an invalid link is reported; otherwise the bot joins when it has no player, and exactly one track, with the caller as requester, is enqueued as `Enqueue` says |
| Music.MusicCog.JoinVoice | src/cogs/music.py:235-238 | joining registers a new idle player for the guild and nothing else |
| Music.MusicCog.Queue | src/cogs/music.py:256-333 | at most 20 entries in queue order, with the size "Empty" for an empty queue; nothing changes |
| Music.MusicCog.Pause | src/cogs/music.py:335-357 | after the guards it flips the paused flag; a failed guard changes nothing |
| Music.MusicCog.Loop | src/cogs/music.py:359-388 | after the guards, while playing it flips the loop mode; otherwise only a reply |
| Music.MusicCog.Skip | src/cogs/music.py:390-416 | after the guards, while playing it sets normal mode and stops the track; otherwise nothing |
| Music.MusicCog.Quit | src/cogs/music.py:418-436 | after the guards it says goodbye and drops the player with its queue |
| ScriptsMusic.ReasonGet | scripts/modules/music.py:20-26 | the lookup finds a member exactly under its exact name |
| ScriptsMusic.ReasonGetOfName | scripts/modules/music.py:20-26 | every member is found under its own name |
| ScriptsMusic.ReasonGetIsCaseSensitive | scripts/modules/music.py:20-26 | "finished" in lower case is not a reason to advance the queue in the lookup used at line 210, where the newer cog accepts it |
| ScriptsMusic.LineOf | scripts/modules/music.py:129-136 | the listed duration is the track's own, with seconds below 60 |
| ScriptsMusic.IsUserBotSameChannel | scripts/modules/music.py:36-42 | false without a voice client; otherwise whether the author is in the bot's channel; raises when the author is in no voice channel |
| ScriptsMusic.NoVoiceClientRejectsEveryone | scripts/modules/music.py:36-42 | without a voice client the first bot turns every author away (as `play` does at lines 68-72), where the newer guard lets them through |
| ScriptsMusic.Player.constructor | scripts/modules/music.py:79-82 | a new player is idle |
| ScriptsMusic.MusicCog.constructor | scripts/modules/music.py:30-34 | no players and no node |
| ScriptsMusic.MusicCog.ResetAndLeave | scripts/modules/music.py:195-196 | `queue.reset()` empties the queue before the player is dropped, as again at lines 214-218 |
| ScriptsMusic.MusicCog.OnNodeReady | scripts/modules/music.py:198-202 | the node is remembered |
| ScriptsMusic.MusicCog.Play | scripts/modules/music.py:55-89 | without voice, or without the bot in the author's channel, a refusal; without a ready node or a result, only the log; otherwise the first result joins the back of the queue, or starts when nothing plays |
| ScriptsMusic.MusicCog.Show | scripts/modules/music.py:91-140 | every queued track in order with its own duration, no cap; nothing is sent without a voice client |
| ScriptsMusic.MusicCog.ControlGuard | scripts/modules/music.py:145-155 | a command proceeds exactly when the bot has a player and the author is in its channel |
| ScriptsMusic.MusicCog.Pause | scripts/modules/music.py:142-160 | after the guards it toggles between paused and resumed |
| ScriptsMusic.MusicCog.Skip | scripts/modules/music.py:162-178 | after the guards it stops only a playing track |
| ScriptsMusic.MusicCog.Quit | scripts/modules/music.py:180-196 | after the guards the queue is reset and the player dropped |
| ScriptsMusic.MusicCog.OnTrackEnd | scripts/modules/music.py:204-226 | FINISHED or STOPPED, spelled exactly, plays the front of a non-empty queue, else resets and leaves; any other reason resets and leaves |
| ScriptsMusic.MusicCog.OnTrackStart | scripts/modules/music.py:228-239 | one member or fewer, bots counted, means reset and leave; otherwise announce |

## Left out

- I/O and services: Discord, Lavalink, gallery-dl, the subprocess, the OpenAI client, the YouTube API, feedparser and aiohttp are foreign calls. What they return is a parameter and what they are asked to do is an effect. Waits, `delete_after`, the one-second sleeps and `defer`'s time limit are timing only.
- Concurrency: the `tasks.loop` schedules and the interleaving at `await` points are not modelled. Each handler is one atomic step.
- `wavelink.Queue` is not part of this model. Its behaviour in loop mode is an assumption, stated at `Music.QueueGet`: `get()` hands out the last track again and leaves the queue alone.
- Floating point:
  - the MiB formatting of sizes (`src/cogs/general.py:74`);
  - the rounding and multiplication in `forex`, which is modelled with `real`;
  - `temperature / 100` in `chat`.
  - Durations are divided as integers on milliseconds.
- Persistence: `runSQL`, `connectDB`, the SQLAlchemy sessions and the migration are glue. Tables are fields of the cogs.
- The blanket `UPDATE GuildInfo SET LastUpdated` (src/cogs/steam.py:147) is a side effect with no WHERE clause. The time-filtered, joined query of new giveaways is a parameter (`GuildScan`).
- The insert failure in Steam's `blacklist` and `checkGiveaway` is a parameter. The schema's constraints are not modelled.
- Datetimes in `subscription.py` are integers compared as instants. Naive and aware datetimes are not told apart. `strptime` either yields an instant or fails.
- Only the first page of YouTube answers is read, as in the source; `pageToken` is not modelled.
- The unicode-escape codec of the welcome message (src/cogs/meta.py:201-203) is a parameter (`unescape`).
- Text is ASCII as far as case and digits go: `str.lower`, `str.upper`, `\d` and `int()` are modelled on ASCII only.
- Guid.ParseUuid: `int(·, 16)` is modelled for ASCII text; the non-ASCII digits and the Unicode whitespace Python's `int` also accepts are not, so `uuid.UUID` accepts some such strings that the model rejects.
- Commands with no logic beyond I/O:
  - `hello` (src/cogs/general.py:23-32 and src/my_discord_bot/cogs/general.py:23-32);
  - posting and unlinking the downloaded file (src/my_discord_bot/cogs/general.py:110-117, src/cogs/general.py:94-98);
  - `download`.
- Commands in src/cogs/meta.py that are not modelled:
  - `sync` (lines 24-60): a database synchronisation over the client's guild list;
  - `get_log` (lines 148-170): a file lookup by date;
  - `version` (lines 246-274): git and file-system lookups.
- src/my_discord_bot/cogs/_cog_base.py is not part of this model. `BotGeneral.Pixiv` uses `CogBase.GetMaxFileSize` from src/cogs/_cog_base.py in its place.
- General.Pixiv: models the command as evidently intended. As written, src/cogs/general.py cannot run: line 12 imports `check_cooldown`, which src/cogs/cog_base.py does not define, and line 62 calls `self.get_max_file_size`, an attribute the cog base of that package lacks (it has `getMaxFileSize`). The model takes no cooldown and takes the upload limit in MiB as a parameter.
- Steam.NextRowid: the SteamBlacklist table's definition is not part of this model. The rowid follows SQLite's rule for a table without AUTOINCREMENT, one past the largest rowid. SQLite's random choice once the largest rowid is 2^63 - 1 is not modelled.
- Steam.SteamCog.RemoveCommand: deletes the keyword's rows of the calling guild only, and says "not found" when that guild has none. At src/cogs/steam.py:44-51 the existence check and the DELETE look at every guild. The as-written deletion is `Steam.RemoveKeyword`, and `Steam.RemoveKeywordReachesOtherGuilds` shows the difference; see Findings.
- Steam.SteamCog.Blacklist: removes the keyword from the calling guild only. The source deletes it in every guild, and its existence check looks at every guild. That behaviour is `Steam.RemoveKeyword`; see Findings.
- Music.MusicCog.Queue: lists each queued track with its own duration. The source shows the current track's minutes; that line is `Music.QueuedLine`. See Findings.

## Findings

| source | as written | input that shows it | evidently intended | confidence | as-written member | corrected member |
|---|---|---|---|---|---|---|
| src/my_discord_bot/cogs/ai.py:68-69 | the follow-ups run to `math.ceil(len / 2000)` inclusive, so the last slice starts at or past the end of the text | any completion longer than 2000 characters, e.g. 2001 characters: sends of 2000, 1 and 0 characters | follow-ups up to `ceil(len / 2000) - 1`, so no empty message is sent | not executed | Ai.Chat | Ai.ChatWithoutEmptyTail |
| src/cogs/music.py:313 | a queued track's minutes are computed from `vc.current.length` | a 1:10 track queued behind a playing 3:00 track is listed as 3:10 | the queued track's own length, as for the seconds on line 314 | not executed | Music.QueuedLineBorrowsCurrentMinutes | Music.Line |
| src/cogs/steam.py:44-51 | the existence check and the DELETE filter on the keyword alone, not on the guild | guild 1 removes "epicgames" while guild 2 also blacklists it: guild 2's entry is deleted too | remove the keyword from the calling guild's blacklist only, as the listing and the insert are per guild | not executed | Steam.RemoveKeywordReachesOtherGuilds | Steam.RemoveGuildKeywordKeepsOtherGuilds |
