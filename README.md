# Terra Nanotech Discord bot cogs, modelled in Dafny

This project models the cogs that the Terra Nanotech alliance adds to its Alliance Auth Discord bot:

- the character lookup and alt-corporation roll-ups (`/lookup`, `/altcorp`, `!lookup`, `!altcorp`);
- the locator, which sorts a main's alts into online, offline and tokenless buckets;
- the administrator commands: channel permissions, the administrator bit, new channels, empty
  roles, orphans, webhooks, versions and the command list;
- the Django mirror of the guild's channels;
- the recruitment gate;
- the market price check;
- the `Setting` singleton and the two helpers.

Every cog is a Dafny module. The Discord, ORM and HTTP side enters as plain values or as function
parameters:
- a lookup result is an `Option<CharacterRecord>`;
- the appraisal service is a function `Market -> MarketReply`, whose `Raised` variant is a request
  that raised;
- URL builders are the `Links` record;
- a role deletion is a `RoleInfo -> bool`.

Loops of the source are methods proved equal to a specification function. The other properties
are lemmas about those functions. State that the source changes in place is held by classes:
the settings row (`Settings.SettingStore`), the guild's channels, overwrites and role permissions
(`Admin.Guild`), and the `Servers` and `Channels` tables (`Models.Registry`).

Modules shared by several cogs:
- `Wrappers`: Option and Result.
- `Text`: join, split, decimal text, lower case, padding.
- `Seqs`: chunking into pages, flattening, first-seen de-duplication.
- `Discord`: embeds, fields, mentions, channels.
- `Roster`: the rules `lookup.py` and `members.py` share. These are the capped "Linked Characters"
  fields, the kill totals, the own-alliance filter and the per-main tally.

Where the code and its documentation disagree, the model follows the code:
- `locate.py` reads `Setting.Field.LOCATE_CHANNELS`, a member the `Field` enum does not have. The
  channel getter therefore always raises `AttributeError` (`Locate.LocateChannels`). It is not
  the documented "channels, or an empty list". The command decorator calls the getter while the
  class body runs, so `cogs/locate.py` cannot even be imported as written and `/locate` is never
  registered: the `Locate` module models what the command would do once the getter is fixed.
- In `lookup.py` the kill fields are only added when statistics are active. The "Not Installed"
  text is therefore never shown, and the model has no such branch.
- `lookup.py` reads `main.corporation_ticker` without checking for a missing main. A linked
  character whose account has no main makes `get_lookup_embed` raise; `Lookup.LookupEmbed`
  returns `Failure` there. `members.py` handles the same case with a message, and
  `Members.LookupEmbed` models that.
- In `command_list` the test `' ' if command.full_parent_name.rjust else ''` checks a bound
  method, which is always truthy. The separator is therefore always a space.

The source errors listed under "## Findings" are the exception. The own-alliance error appears
twice, in `lookup.py` and in `members.py`, and the `len(None)` error once. Each row is modelled as
written by its own members, and the rest of the model uses the corrected behaviour. In particular the
alt-corporation roll-ups of both `lookup.py` and `members.py` use the corrected own-alliance
filter `Roster.AltsInCorp`.

## Model

| member | source | states |
|---|---|---|
| Helper.GetDiscordId | tnnt_discordbot_cogs/helper.py:30-43 | the uid is returned exactly when character, ownership, user and Discord account are all present, and it is that account's uid; otherwise `None` |
| Helper.UnloadCog | tnnt_discordbot_cogs/helper.py:12-27 | `remove_cog` is called once with the name; the printed line is the success text, or the failure text with the error; no outcome raises |
| Helper.UnloadReportDistinguishes | tnnt_discordbot_cogs/helper.py:22-27 | the printed report starts with `Unloaded` exactly when removal succeeded |
| Settings.GetSetting | tnnt_discordbot_cogs/models/setting.py:141-155 | fails exactly when no field has that key, with the message "Setting key '<k>' does not exist." |
| Settings.GetSettingOfFieldKey | tnnt_discordbot_cogs/models/setting.py:25-42 | every `Field` value names a model field, so looking it up returns that field's current value and never raises |
| Settings.KeyValueInjective | tnnt_discordbot_cogs/models/setting.py:30-42 | distinct enum members have distinct values |
| Settings.FieldByMember | tnnt_discordbot_cogs/models/setting.py:25-42 | an enum member name resolves to the field of that name; a name no member has gives `AttributeError` |
| Settings.KeyFromValue | tnnt_discordbot_cogs/models/setting.py:25-42 | a key string maps back to the field with that value, or to none when no field has it |
| Settings.WriteThenRead | tnnt_discordbot_cogs/models/setting.py:152-153 | after writing a well-typed value, reading the same key gives it back and every other key is unchanged |
| Settings.DefaultValues | tnnt_discordbot_cogs/models/setting.py:45-120 | the singleton's defaults: empty applicant role name, no role ids, no channels, "Member" excluded, no lookup channels |
| Settings.ChannelDeletionNullsReferences | tnnt_discordbot_cogs/models/setting.py:59-66 | deleting a channel sets every reference to it to none and drops it from the lookup channels; other settings and references are kept |
| Settings.RemoveAll | tnnt_discordbot_cogs/models/setting.py:114-120 | the many-to-many set after a deletion holds exactly the other channels |
| Settings.ToString | tnnt_discordbot_cogs/models/setting.py:131-139 | the text of the setting is "Settings" |
| Settings.ChannelIds | tnnt_discordbot_cogs/models/setting.py:114-120 | the lookup-channel key yields the stored channel ids |
| Settings.SettingStore.Get | tnnt_discordbot_cogs/models/setting.py:152-155 | a read of the singleton is `GetSetting` on its current values |
| Settings.SettingStore.Write | tnnt_discordbot_cogs/models/setting.py:45-120 | the singleton holds the written value and nothing else changes |
| Settings.SettingStore.ChannelDeleted | tnnt_discordbot_cogs/models/setting.py:59-103 | the singleton after a channel deletion is `OnChannelDeleted` of the old one |
| Roster.AddGroupFields | tnnt_discordbot_cogs/cogs/lookup.py:193-213 | the loop appends exactly the capped group fields to the fields already there |
| Roster.GroupFieldsLayout | tnnt_discordbot_cogs/cogs/lookup.py:198-213 | there are min(ceil(n/6), 7) fields, seven exactly when more than 36 names; field k holds names 6k..6k+5 joined, fields 1..6 are numbered, the seventh is numbered 6 with the marker |
| Roster.GroupFieldsShowFirst42 | tnnt_discordbot_cogs/cogs/lookup.py:198-213 | the fields show exactly the first 42 names, in order |
| Roster.SumKills | tnnt_discordbot_cogs/cogs/lookup.py:168-188 | the accumulated 12- and 3-month totals are the totals over the counted alts |
| Roster.KillTotalsAppend | tnnt_discordbot_cogs/cogs/lookup.py:184-188 | the totals of two lists of alts add up |
| Roster.KillTotalsOfUncounted | tnnt_discordbot_cogs/cogs/lookup.py:185-188 | alts with no statistics or a zero 12-month value contribute nothing |
| Roster.OwnIdsAsWrittenExcludeNobody | tnnt_discordbot_cogs/cogs/lookup.py:285-293 | with the alliance list wrapped in a list, no character is ever recognised as a member |
| Roster.OwnIdsAsWrittenKeepMember | tnnt_discordbot_cogs/cogs/lookup.py:285-293 | a character of member alliance 99 is not excluded as written, and is excluded by the corrected test |
| Roster.AltsInCorpMembers | tnnt_discordbot_cogs/cogs/lookup.py:289-293 | the selected characters are exactly those of the corporation outside the member alliances, and no more than the corporation has |
| Roster.SelectAlts | tnnt_discordbot_cogs/cogs/lookup.py:284-293 | the loop selects `AltsInCorp` and keeps the corporation id of the last character seen |
| Roster.TallySpec | tnnt_discordbot_cogs/cogs/lookup.py:295-308 | the tally lists each main once in first-seen order; its count is the number of its alts, at least one; the counts add up to the known characters |
| Roster.CountMains | tnnt_discordbot_cogs/cogs/lookup.py:295-308 | the dict-and-counter loop computes the tally and the number of known characters |
| Roster.Plural | tnnt_discordbot_cogs/cogs/lookup.py:321 | the suffix is "s" exactly when the count is above one |
| Roster.AccountTailLayout | tnnt_discordbot_cogs/cogs/lookup.py:215-224 | a Groups field exactly when there are groups, the two kill fields with the totals when statistics are active, and the Discord Link field last |
| Roster.DiscordString | tnnt_discordbot_cogs/cogs/lookup.py:148-153 | the Discord link is the user mention, or "unknown" when the uid lookup fails |
| Lookup.LookupChannels | tnnt_discordbot_cogs/cogs/lookup.py:66-80 | the lookup channels are the ids stored in the setting |
| Lookup.BuildLookupEmbed | tnnt_discordbot_cogs/cogs/lookup.py:126-277 | the embed built field by field is `LookupEmbed` |
| Lookup.LookupOutcomes | tnnt_discordbot_cogs/cogs/lookup.py:126-277 | it fails exactly for a linked character without a main; red exactly for an unknown name; titled "Character Lookup" exactly for an unlinked one; an unknown name has no fields |
| Lookup.LinkedEmbedLayout | tnnt_discordbot_cogs/cogs/lookup.py:190-224 | a linked character gets the capped alt fields, the groups and kill fields when present, the 12-month total and the Discord Link last |
| Lookup.UnlinkedEmbedLayout | tnnt_discordbot_cogs/cogs/lookup.py:227-268 | an unlinked character gets "Old Users" ("No user links found" or the comma-joined users) followed by the capped found-character fields, names comma-separated within a field |
| Lookup.WriteCsv | tnnt_discordbot_cogs/cogs/lookup.py:99-123 | the rows written are the header followed by one row per alt |
| Lookup.CsvRowsSpec | tnnt_discordbot_cogs/cogs/lookup.py:99-123 | each alt's row has six cells whose ids parse back to the alt's ids; the alliance cell is empty exactly when there is no alliance |
| Lookup.SlashLookup | tnnt_discordbot_cogs/cogs/lookup.py:384-391 | the embed is `LookupEmbed`'s and, when asked for, the file is `GetCsv`'s; a file is attached exactly when one was asked for; the command fails exactly when the asked-for CSV or the embed fails |
| Lookup.CsvOnlyForLinked | tnnt_discordbot_cogs/cogs/lookup.py:384-391 | asking for the CSV of an unknown or unlinked character fails, while the plain lookup answers |
| Lookup.BuildAltCorpEmbeds | tnnt_discordbot_cogs/cogs/lookup.py:279-345 | the loops build `AltCorpEmbeds` |
| Lookup.AltCorpLayout | tnnt_discordbot_cogs/cogs/lookup.py:310-343 | a header embed and then one embed per 10 roll-up lines, all titled with the input, carrying every line in order; the counts add up to the known characters |
| Roster.AltsInCorpAsWrittenKeepsAll | tnnt_discordbot_cogs/cogs/lookup.py:285-293 | as written, every character of the corporation is treated as an alt |
| Lookup.SlashAltcorpAsWrittenNeverSaysNoMembers | tnnt_discordbot_cogs/cogs/lookup.py:419-431 | as written, an empty corporation raises instead of answering "No Members Found!" |
| Lookup.SlashAltcorpReplies | tnnt_discordbot_cogs/cogs/lookup.py:419-431 | corrected: "No Members Found!" exactly for an empty corporation, otherwise the embeds in order with the first one default-coloured |
| Members.LookupArgument | tnnt_discordbot_cogs/cogs/members.py:56 | the name is what follows `!lookup `, empty for a shorter message |
| Members.AltcorpArgument | tnnt_discordbot_cogs/cogs/members.py:232 | the corporation name is what follows `!altcorp `, empty for a shorter message |
| Members.Lookup | tnnt_discordbot_cogs/cogs/members.py:45-214 | the embed built field by field is `LookupEmbed` of the argument |
| Members.NoMainDescription | tnnt_discordbot_cogs/cogs/members.py:112-120 | the description says "not associated with any Auth account" exactly when the account has no main |
| Members.LookupAlwaysAnswers | tnnt_discordbot_cogs/cogs/members.py:112-158 | a linked character always gets a blue embed with the capped alt fields, the optional groups and kill fields and the Discord Link: no crash without a main |
| Members.UnlinkedOldUsers | tnnt_discordbot_cogs/cogs/members.py:161-206 | an unlinked character gets "Old Users" joined by newlines (empty when none) followed by the capped found-character fields, one name per line |
| Members.Altcorp | tnnt_discordbot_cogs/cogs/members.py:221-275 | the loops send `AltcorpEmbeds` of the argument |
| Members.AltcorpAsWrittenCountsMembers | tnnt_discordbot_cogs/cogs/members.py:234-238 | as written, the roll-up is that of every character of the corporation; a lone member-alliance character with a known main gets one embed, where the corrected filter sends none |
| Members.AltcorpLayout | tnnt_discordbot_cogs/cogs/members.py:255-275 | one embed per 10 mains, none exactly when no alt has a known main; embed k holds page k of the main lines (1 to 10 of them, newline-joined), so every line is sent once, in order |
| Locate.LocateChannels | tnnt_discordbot_cogs/cogs/locate.py:50-65 | the channel getter always raises `AttributeError`, because the settings enum has no `LOCATE_CHANNELS` |
| Locate.SortAlts | tnnt_discordbot_cogs/cogs/locate.py:132-219 | the alt loop fills the three buckets as `BucketEntries` says |
| Locate.BucketsPartition | tnnt_discordbot_cogs/cogs/locate.py:132-219 | every alt lands in exactly one bucket: the buckets' ids together are the alts' ids |
| Locate.BucketContents | tnnt_discordbot_cogs/cogs/locate.py:155-204 | online alts have a location marked online, offline ones a location not online, tokenless ones none |
| Locate.ProcessAltList | tnnt_discordbot_cogs/cogs/locate.py:78-122 | the nested loops build `AltListEmbeds` |
| Locate.AltListEmbedsCount | tnnt_discordbot_cogs/cogs/locate.py:97-120 | one embed per 10 alts, each with the bucket's header and colour |
| Locate.GetLocateEmbeds | tnnt_discordbot_cogs/cogs/locate.py:206-219 | the bucket embeds are concatenated as `LocateEmbeds` says |
| Locate.LocateEmbedsLayout | tnnt_discordbot_cogs/cogs/locate.py:206-219 | the embeds are the online pages (green), then the offline pages (orange), then the tokenless pages (red), ceil(count/10) each |
| Locate.LocateResponsesShape | tnnt_discordbot_cogs/cogs/locate.py:229-273 | an unknown character gets only "Character **<name>** does not exist in our Auth system", an unlinked one only "Character **<name>** Unlinked in auth"; a linked one gets "Looking up the location of all known alts of <main> (<discord>)" with "Please Wait...", followed by exactly the locate embeds |
| Admin.WithAdministrator | tnnt_discordbot_cogs/cogs/admin.py:224-256 | setting or clearing the administrator bit leaves every other permission bit as it was |
| Admin.Guild.AddRole | tnnt_discordbot_cogs/cogs/admin.py:93-97 | the role's overwrite on the channel becomes read and send, nothing else changes, and the reply names role and channel |
| Admin.Guild.AddRoleRead | tnnt_discordbot_cogs/cogs/admin.py:120-124 | the role's overwrite becomes read without send, nothing else changes |
| Admin.Guild.RemRole | tnnt_discordbot_cogs/cogs/admin.py:147-151 | the role's overwrite becomes neither read nor send, nothing else changes |
| Admin.Guild.PromoteToGod | tnnt_discordbot_cogs/cogs/admin.py:224-229 | the role's permissions gain the administrator bit, nothing else changes |
| Admin.Guild.DemoteFromGod | tnnt_discordbot_cogs/cogs/admin.py:251-256 | the role's permissions lose the administrator bit, nothing else changes |
| Admin.DuplicateIndex | tnnt_discordbot_cogs/cogs/admin.py:179-185 | no index exactly when no channel of the category clashes with the lower-cased name; otherwise the first clashing one |
| Admin.FindDuplicate | tnnt_discordbot_cogs/cogs/admin.py:179-185 | the search loop finds `DuplicateIndex` |
| Admin.ClashIgnoresCase | tnnt_discordbot_cogs/cogs/admin.py:179-185 | whether a name clashes does not depend on the case of its ASCII and Latin-1 letters |
| Admin.ClashFoldsLatin1 | tnnt_discordbot_cogs/cogs/admin.py:181 | a name with a Latin-1 capital clashes with the existing channel spelled in lower case |
| Admin.Guild.NewChannel | tnnt_discordbot_cogs/cogs/admin.py:177-202 | with a clash nothing changes and the reply links the existing channel; otherwise one text channel, with the name Discord gave it, is added in the category, hidden from @everyone and open to the role, and the reply quotes that name |
| Admin.CreatedChannelClashes | tnnt_discordbot_cogs/cogs/admin.py:177-202 | after a creation, a request that had no clash before is refused exactly when the created channel's name equals it ignoring case |
| Admin.CreatedLowerNameClashes | tnnt_discordbot_cogs/cogs/admin.py:177-202 | when Discord keeps the requested lower-cased name, any later request that lower-cases the same is refused |
| Admin.EmptyRoles | tnnt_discordbot_cogs/cogs/admin.py:276-295 | the loop builds the "Server Role Status" embed |
| Admin.RoleListsSpec | tnnt_discordbot_cogs/cogs/admin.py:276-293 | the empty list holds exactly the roles with no members, the no-group list exactly the populated roles with no auth group |
| Admin.ClearEmptyRoles | tnnt_discordbot_cogs/cogs/admin.py:315-331 | the loop sends `ClearReplies` |
| Admin.ClearCounts | tnnt_discordbot_cogs/cogs/admin.py:315-331 | deleted plus failed roles are the empty roles; one count reply plus one reply per 50 failures, each page holding 1..50 names |
| Admin.PayloadSpec | tnnt_discordbot_cogs/cogs/admin.py:353-378 | the payload is the header followed by one mention line per orphan |
| Admin.OrphansSpec | tnnt_discordbot_cogs/cogs/admin.py:353-378 | the orphans are exactly the non-bot members whose id is not a Discord user of auth |
| Admin.OrphansCommand | tnnt_discordbot_cogs/cogs/admin.py:353-382 | the payload is sent, or its first 1999 characters when sending it whole fails |
| Admin.OrphansFallback | tnnt_discordbot_cogs/cogs/admin.py:379-382 | the fallback is a prefix of the payload of at most 1999 characters, and the payload itself when short enough |
| Admin.GetWebhooks | tnnt_discordbot_cogs/cogs/admin.py:403-417 | "No webhooks for this channel." when there are none, otherwise one line per hook |
| Admin.WebhookLinesRecoverable | tnnt_discordbot_cogs/cogs/admin.py:410-417 | splitting the reply on newlines gives the hook lines back when names and URLs have no newline |
| Admin.CommandList | tnnt_discordbot_cogs/cogs/admin.py:514-540 | the loop produces the header, the rule and the de-duplicated command lines |
| Admin.HelpLinesSpec | tnnt_discordbot_cogs/cogs/admin.py:514-535 | the lines after the header are distinct and are exactly the command lines, and the rule is 110 dashes |
| Admin.CollectPackages | tnnt_discordbot_cogs/cogs/admin.py:463-480 | the extension loop fails exactly when `Grouped` does, with its text; otherwise its keys and dict hold `Grouped`'s entries in order |
| Admin.Versions | tnnt_discordbot_cogs/cogs/admin.py:463-495 | the reply is the "Loaded Extensions" embed or "Something went wrong! " with the error |
| Admin.GroupedSpec | tnnt_discordbot_cogs/cogs/admin.py:470-480 | each distribution appears once, each extension sits under the first distribution of its top-level module, and the entries hold exactly the extensions with a known module |
| Models.FindCategory | tnnt_discordbot_cogs/cogs/models.py:50 | the category found is a guild category with the channel's category id, and none is found only when there is no such category |
| Models.ChannelNameSpec | tnnt_discordbot_cogs/cogs/models.py:50-58 | a category keeps its name; any other channel is "#name", prefixed by its category's name and " » " exactly when the category exists |
| Models.UpsertName | tnnt_discordbot_cogs/cogs/models.py:165-168 | an upsert by name sets that row's name, keeps its server, and leaves other rows as they were |
| Models.PopulatedRows | tnnt_discordbot_cogs/cogs/models.py:90-97 | after populate every non-category channel has its row with the formatted name and the guild's server |
| Models.PopulatedKeepsOthers | tnnt_discordbot_cogs/cogs/models.py:90-97 | populate inserts no category and leaves every other row as it was |
| Models.RenamedSpec | tnnt_discordbot_cogs/cogs/models.py:171-181 | re-naming a category renames exactly its sub-channels and leaves other rows as they were |
| Models.UpdatedSpec | tnnt_discordbot_cogs/cogs/models.py:164-181 | the updated channel always gets its row; a category also renames its sub-channels; nothing else changes |
| Models.Registry.Populate | tnnt_discordbot_cogs/cogs/models.py:75-103 | the server row is written, the channel rows are `Populated`, and the two replies are sent |
| Models.Registry.ChannelDeleted | tnnt_discordbot_cogs/cogs/models.py:116-129 | the row goes if present; every other row and the servers stay |
| Models.Registry.ChannelCreated | tnnt_discordbot_cogs/cogs/models.py:142-149 | one new row when the server exists and the channel has none; otherwise nothing changes |
| Models.Registry.ChannelUpdated | tnnt_discordbot_cogs/cogs/models.py:164-184 | the rows become `Updated` and the servers stay |
| Models.Registry.GuildUpdated | tnnt_discordbot_cogs/cogs/models.py:199-207 | the server name is written exactly when it changed |
| RecruitMe.SlashRecruitMe | tnnt_discordbot_cogs/cogs/recruit_me.py:94-106 | a ticket for the invoker exactly when the invoker holds the applicant role, otherwise the groups-page refusal |
| RecruitMe.ReverseRecruit | tnnt_discordbot_cogs/cogs/recruit_me.py:123-142 | a ticket for the target exactly when the target is an applicant and the invoker is a recruiter or the target; a non-applicant target is refused first |
| RecruitMe.MessageContextRecruit | tnnt_discordbot_cogs/cogs/recruit_me.py:123-142 | the message author is the target of that rule |
| RecruitMe.UserContextRecruit | tnnt_discordbot_cogs/cogs/recruit_me.py:159-178 | the selected user is the target of the same rule |
| RecruitMe.SelfServiceAgrees | tnnt_discordbot_cogs/cogs/recruit_me.py:94-178 | aiming a context command at oneself opens a ticket exactly when `/recruit_me` would; a recruiter can open one for any applicant |
| RecruitMe.TicketSpec | tnnt_discordbot_cogs/cogs/recruit_me.py:51-66 | the thread is private and archives after 10080 minutes, is named after the main, and pings the leadership role, the recruiter role and the member |
| PriceCheck.RunPriceCheck | tnnt_discordbot_cogs/cogs/price_check.py:86-191 | the loop with the `has_thumbnail` flag sends the single embed `PriceCheck` describes |
| PriceCheck.CommandItems | tnnt_discordbot_cogs/cogs/price_check.py:46-82 | the item is the text after `!price `, `!jita ` or `!amarr ` |
| PriceCheck.MarketNames | tnnt_discordbot_cogs/cogs/price_check.py:35-84 | `!price` asks Jita, Amarr, Rens, Hek, Dodixie and Perimeter in that order; `!jita` and `!amarr` ask their one hub |
| PriceCheck.EmptyItemSpec | tnnt_discordbot_cogs/cogs/price_check.py:177-189 | an empty item name gives a red embed with exactly one "Error" field and no thumbnail |
| PriceCheck.MarketFieldsSpec | tnnt_discordbot_cogs/cogs/price_check.py:105-176 | each market starts with its header; status 200 adds the inline sell and buy fields, with the no-orders texts exactly for a count of 0; any other status adds one "API Error" field |
| PriceCheck.FirstThumbnailSpec | tnnt_discordbot_cogs/cogs/price_check.py:95-143 | the thumbnail is the icon of the first market that answered 200, and there is none exactly when no market did |
| PriceCheck.FirstRaiseSpec | tnnt_discordbot_cogs/cogs/price_check.py:105-124 | nothing is raised exactly when no market's request raises and no 200 reply lacks the appraisal; otherwise the exception is that of the first such market |
| PriceCheck.PriceCheckFails | tnnt_discordbot_cogs/cogs/price_check.py:105-124 | the command fails exactly when some market's request raises or its 200 reply lacks the appraisal, with the exception of the first such market |
| PriceCheck.PriceCheckSpec | tnnt_discordbot_cogs/cogs/price_check.py:99-176 | when no market raises, the green embed titled with the item holds every market's fields in market order, so a market answering with an error status does not stop the later ones |

## Left out

- Transport: sending, deferring, typing indicators, ephemeral flags and Discord API failures other than those named in the model. Replies are values.
- ORM queries: character, account, alliance and group lookups enter as values. The autocomplete searches and `Paginator` page splitting are not part of this model.
- The welcome, about, auth and timers cogs, the cog `setup` wiring, the hook registration, the Django admin and app configuration. They hold no logic beyond constant embeds, ORM queries or random choice.
- HTTP and ESI: the appraisal request, the location, ship and online calls of the locator, and token validity are function parameters or fields of `AltProbe`. A raising appraisal request is the `Raised` reply; a raising locator fetch is a `None` fetch, as the source catches it.
- Exception texts: a `Failure` carries the text of the exception when the model raises one itself (`KeyError`, `AttributeError`, `TypeError`), and the given text for a raising appraisal request.
- Lookup.AltCorpLayout: `EveCorporationInfo.provider.get_corporation` is assumed to answer: the provider is a total function, so an ESI error there, which would end `/altcorp` with no reply, is not modelled.
- Lookup.BuildAltCorpEmbeds: the same assumption that the corporation provider does not raise.
- Floating-point price formatting: `{:,}` renders enter as the strings `sellMinText` and `buyMaxText`.
- All date and time work: thread names take the formatted time as a parameter, and last-online times are strings.
- The `sender_is_admin`, `sender_has_any_perm` and `message_in_channels` decorators: their code is not part of this model.
- CSV quoting by the `csv` module: rows are modelled as lists of cells.
- evewho, dotlan and zKillboard URL builders: they are functions in the `Links` records.
- The `uptime`, `stats`, `sync`, `force_sync` and nickname/group sync commands of the admin cog: they report clocks, process statistics or call into the bot's sync tasks.
- The `Models` listeners swallow every database error. Only two failures are modelled: a channel created for a guild without a `Servers` row, and a duplicate channel id. An upsert by a listener creates a row with no server.
- Admin.DuplicateIndex: Python's `str.lower()` folds every cased Unicode letter, and some into several characters; `Text.Lower` folds only ASCII and Latin-1 capitals, so clashes that differ in the case of other letters (Greek, Cyrillic, ...) are not found.
- Admin.FindDuplicate: the same restriction of `str.lower()` to ASCII and Latin-1 letters.
- Admin.ClashIgnoresCase: case independence is proved for ASCII and Latin-1 letters only, for the same reason.
- Admin.Guild.NewChannel: the requested name is lower-cased only in ASCII and Latin-1 letters; the name Discord gives the created channel is a parameter, and how Discord derives it from the request is not modelled.
- Settings.GetSetting: `getattr` on the row also answers attributes that are not `Field` keys (`id`, `pk`, `recruiting_channel_id`, methods); only the nine `Field` keys are modelled as attributes, and every other key is the `KeyError` path.
- Lookup.LookupEmbed: the `AttributeError` for a linked character without a main is a `Failure` with the exception text. The rest of the traceback is not modelled.

## Findings

| source | as written | input that shows it | evidently intended | confidence | as-written member | corrected member |
|---|---|---|---|---|---|---|
| tnnt_discordbot_cogs/cogs/lookup.py:285-293 | `own_ids = [DISCORD_BOT_MEMBER_ALLIANCES]` wraps the alliance list in a list, so `alliance_id in own_ids` compares an id with a list and is never true | a character of alliance 99 with member alliances `[99]` is counted as an alt | characters of the member alliances are skipped | not executed | Roster.OwnIdsAsWrittenExcludeNobody, Roster.AltsInCorpAsWrittenKeepsAll | Roster.AltsInCorpMembers |
| tnnt_discordbot_cogs/cogs/members.py:234-238 | `!altcorp` builds `own_ids = [DISCORD_BOT_MEMBER_ALLIANCES]` the same way, so its `alliance_id not in own_ids` test keeps every character | a lone character of alliance 99 with member alliances `[99]` and a known main is rolled up into one embed | characters of the member alliances are skipped | not executed | Members.AltcorpAsWrittenCountsMembers | Members.AltcorpLayout |
| tnnt_discordbot_cogs/cogs/lookup.py:419-431 | `len(embeds)` is taken before the `None` check, and `build_altcorp_embeds` returns `None` for a corporation with no characters | a corporation name with no characters raises `TypeError` | the reply "No Members Found!" | not executed | Lookup.SlashAltcorpAsWrittenNeverSaysNoMembers | Lookup.SlashAltcorpReplies |
