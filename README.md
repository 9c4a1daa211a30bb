# A verified model of a community-management chat bot

The bot keeps one JSON-like document in memory (`utils/database.js`): user
records (economy, experience, AFK, reminders, voice templates), guild records
(prefix, Voice Master, leveling, custom commands and one section per feature)
and the reaction-role map. Every slash command and every platform event reads
that document, checks a few guards, changes a few fields, saves, and then
talks to the chat platform. This project models the decision logic over the
document in Dafny and proves what each handler promises about it: which
guards refuse, what the new state is, which invariants the handlers keep, and
the round trips, orderings and bounds the features depend on.

How the model is laid out:

- Modules follow the features. Most feature modules model one command file,
  such as `Automod` for `commands/automod/automod.js`. A few cover more than
  one file:
  - `Economy` covers `daily.js`, `work.js`, `pay.js` and `shop.js` of
    `commands/economy/`.
  - `Leaderboards` covers the two `leaderboard.js` files.
  - `VoiceCommands` covers the commands of `commands/voice/` except
    `template.js`, which is `VoiceTemplates`.
  - `VoiceMaster` holds the Voice Master section and the owner gate that
    `setup.js`, `lock.js`, `region.js` and `voiceStateUpdate.js` share.
  - `Music` covers the queue of `play.js` and `queue.js`, including the
    queue changes the dashboard buttons of `interactionCreate.js` make.
  - `MessageEvents`, `InteractionEvents`, `ReactionEvents` and `VoiceEvents`
    model the handlers under `events/`; a feature module holds the part of
    an event handler that belongs to its feature.
  - `Common` holds the string and sequence rules of JavaScript the
    handlers rely on (`trim`, `toLowerCase` on ASCII letters, `length` in
    UTF-16 code units, `split`/`join`, `replace` of the first occurrence
    with its `$` patterns, `indexOf`/`splice`, `filter`, `find`).
  - `Sorting` holds the stable descending sort the leaderboards, the role
    list and backups use.
- Records the handlers update in place are classes. They are
  `Database.Store`, `Database.User`, `Database.Guild` and each feature's
  `Settings` or `Registry`. Their methods carry `modifies` clauses and state
  the whole new state. Values stored inside records are datatypes, such as
  a tag, a giveaway or a voice channel entry.
- `save()` is the ghost counter `Database.Store.saves`. A platform outcome
  (a fetched member, a sent message, a created channel) is a parameter of
  the handler. So are the clock (`now`) and every random draw.
- Where a handler computes a value with a loop, the model is a method with
  the loop and its invariants, proved against a specification function. The
  tally, the winner draw, the shuffle, the leaderboards and the role
  collection loops are written this way.

## Model

| member | source | states |
|---|---|---|
| Database.Economy.constructor | utils/database.js:55-60 | a new economy record has balance 0, no daily or work time and no buffs |
| Database.XpData.constructor | utils/database.js:61-66 | a new experience record is level 1 with 0 xp, 0 total and no last message time |
| Database.User.constructor | utils/database.js:53-67 | a new user record has no Last.fm name, fresh default economy and experience records, and no AFK, reminder or template sections |
| Database.User.EnsureReminders | commands/reminder/reminder.js:34-36 | the reminder list is created empty only when missing; an existing list is returned as it is |
| Database.User.EnsureVoiceTemplates | commands/voice/template.js:38-40 | the template map is created empty only when missing; an existing map is returned as it is |
| Database.Guild.constructor | utils/database.js:86-103 | a new guild record has prefix "!", no welcome, auto-role or mod-log channel, a disabled Voice Master section with an empty registry, a disabled level system without rewards, no custom commands, and none of the other sections |
| Database.Guild.EnsureVoiceMaster | commands/voice/setup.js:38-40 | the Voice Master section is created only when missing, disabled and with an empty registry |
| Database.Guild.EnsureLevelSystem | commands/leveling/setup.js:42-48 | the level system is created only when missing, disabled and without rewards |
| Database.Guild.EnsureCustomCommands | commands/custom/create.js:31-33 | the custom-command map is created empty only when missing |
| Database.Guild.EnsureAutomod | commands/automod/automod.js:148-169 | the automod section is created only when missing, with its defaults; an existing one is kept |
| Database.Guild.EnsureLogging | commands/logging/logging.js:97-112 | the logging section is created only when missing, with its defaults |
| Database.Guild.EnsureStarboard | commands/starboard/starboard.js:84-93 | the starboard section is created only when missing, with its defaults |
| Database.Guild.EnsureSuggestions | commands/suggestions/suggestion.js:99-105 | the suggestions section is created only when missing, with its defaults |
| Database.Guild.EnsureTickets | commands/tickets/ticket.js:87-96 | the tickets section is created only when missing, with its defaults |
| Database.Guild.EnsureModmail | commands/modmail/modmail.js:79-87 | the modmail section is created only when missing, with its defaults |
| Database.Guild.EnsureVerification | commands/moderation/verify.js:86-98 | the verification section is created only when missing, with its defaults |
| Database.Guild.EnsureWelcomeImage | commands/welcome/welcomeimage.js:99-107 | the welcome-image section is created only when missing, with its defaults |
| Database.Guild.EnsureServerStats | commands/stats/serverstats.js:60-76 | the server-stats section is created only when missing, with its defaults |
| Database.Guild.EnsureTags | commands/tags/tag.js:44-46 | the tag map is created empty only when missing |
| Database.Guild.EnsureAutoResponders | commands/autoresponder/autoresponder.js:64-69 | the auto-responder section is created only when missing, disabled and empty |
| Database.Guild.EnsureTwitch | commands/integrations/twitch.js:45-49 | the Twitch section is created only when missing, with no streamers |
| Database.Guild.EnsureYoutube | commands/integrations/youtube.js:45-49 | the YouTube section is created only when missing, with no channels |
| Database.Guild.EnsureScheduledMessages | commands/utility/schedule.js:63-65 | the scheduled-message list is created empty only when missing |
| Database.Guild.EnsureRoleMenus | commands/roles/rolemenu.js:87-89 | the role-menu list is created empty only when missing |
| Database.Guild.EnsureGiveaways | commands/giveaway/giveaway.js:61-63 | the giveaway list is created empty only when missing |
| Database.Guild.EnsurePolls | commands/polls/advancedpoll.js:56-58 | the poll list is created empty only when missing |
| Database.Guild.EnsureBackups | commands/backup/backup.js:46-48 | the backup list is created empty only when missing |
| Database.Store.constructor | utils/database.js:21-37 | a new store, or one whose file cannot be read, holds three empty collections and has saved nothing |
| Database.Store.GetUser | utils/database.js:51-71 | an unknown id gets a fresh default record and one save; a known id returns the stored record and saves nothing; no other user entry changes; distinct users keep distinct records |
| Database.Store.GetGuild | utils/database.js:84-107 | an unknown id gets a fresh default guild record and one save; a known id returns the stored record and saves nothing; no other guild entry changes |
| Database.Store.SetLastFM | utils/database.js:73-77 | afterwards the user's Last.fm name is the one given; the record is the existing one when there was one, and only its Last.fm field is written; a new record is otherwise the default one; no other user entry changes |
| Database.Store.GetLastFM | utils/database.js:79-81 | returns the stored name of a known user, and None for an unknown one (whose default record is inserted); after SetLastFM it returns the name set |
| Database.Store.SetPrefix | utils/database.js:109-113 | afterwards the guild's prefix is the one given; only the prefix field of the record is written, and a new record is otherwise the default one; no other guild entry changes; distinct guilds keep distinct records |
| Database.Store.GetPrefix | utils/database.js:115-117 | returns the stored prefix of a known guild and "!" for an unknown one (whose default record is inserted) |
| Database.Store.StoreReactionRoles | commands/reaction-roles/setup.js:100-110 | the bindings are stored under the posted message's id in the top-level map, and saved once |
| Automod.EveryFeatureListed | commands/automod/automod.js:151-158 | the six feature flags are exactly the features the section keeps |
| Automod.Settings.constructor | commands/automod/automod.js:148-169 | a new section is disabled, has six feature flags all off, action "delete", thresholds 5/5/70 and empty lists; it satisfies the section invariant |
| Automod.Settings.SetEveryFeature | commands/automod/automod.js:177-179 | every feature flag gets the value and no flag is added or dropped |
| Automod.Settings.Enable | commands/automod/automod.js:171-190 | the master flag goes on; "all" turns every feature on, one feature turns on only that flag; the invariant (master on only while some feature is on, lists without repeats) is kept |
| Automod.Settings.Disable | commands/automod/automod.js:206-231 | "all" turns every feature and the master flag off; one feature turns its flag off and the master flag stays on only while some feature is still on |
| Automod.Settings.Exempt | commands/automod/automod.js:247-298 | an id that is not all digits is refused, then one that cannot be fetched; otherwise it is appended to the chosen list only when absent, so the lists never repeat an id |
| Automod.Settings.Unexempt | commands/automod/automod.js:299-343 | the first occurrence of the id leaves the chosen list, and the reply says whether it was there; the other list is untouched |
| Automod.Settings.SetAction | commands/automod/automod.js:344-349 | the action is the chosen one |
| Automod.Settings.SetThreshold | commands/automod/automod.js:363-369 | only the chosen threshold changes, to the given value |
| Automod.Settings.AddWord | commands/automod/automod.js:384-407 | a missing or empty word is refused; otherwise the lower-cased word is appended once, and an already banned word is reported and left |
| Automod.Settings.RemoveWord | commands/automod/automod.js:408-431 | a missing or empty word is refused; otherwise the first occurrence of the lower-cased word is removed, and the reply says whether it was listed |
| Logging.EveryEventListed | commands/logging/logging.js:101-108 | the six event flags are exactly the event groups the section keeps |
| Logging.Settings.constructor | commands/logging/logging.js:97-112 | a new section is disabled, has no channel, six event flags all off and empty ignore lists |
| Logging.Settings.Setup | commands/logging/logging.js:114-120 | logging is on and logs go to the given channel |
| Logging.Settings.SetEveryEvent | commands/logging/logging.js:138-140 | every event flag gets the value and no flag is added or dropped |
| Logging.Settings.Enable | commands/logging/logging.js:126-167 | refused, with nothing changed, until a log channel is set; otherwise the chosen events and the master flag go on |
| Logging.Settings.Disable | commands/logging/logging.js:168-208 | "all" turns every event and the master flag off; one event turns its flag off and the master flag stays on only while some event is still on |
| Logging.Settings.Ignore | commands/logging/logging.js:209-260 | an id that is not all digits is refused, then one that cannot be fetched; otherwise it is appended to the chosen list only when absent |
| Logging.Settings.Unignore | commands/logging/logging.js:261-305 | the first occurrence of the id leaves the chosen list, and the reply says whether it was there |
| AutoResponders.FiresIgnoringCase | events/messageCreate.js:337-346 | a responder that is not case sensitive fires for a message exactly when it fires for the lower-cased message |
| AutoResponders.TriggerItselfFires | events/messageCreate.js:337-346 | a message equal to a responder's trigger fires it, in exact and in contains mode, case sensitive or not |
| AutoResponders.OrFalse | commands/autoresponder/autoresponder.js:74-75 | the `exact` and `case_sensitive` options are true only when given as true |
| AutoResponders.Registry.constructor | commands/autoresponder/autoresponder.js:64-69 | a new section is disabled and empty |
| AutoResponders.Registry.Add | commands/autoresponder/autoresponder.js:71-98 | a trigger equal ignoring case to an existing one is refused with nothing changed; otherwise the responder is appended with its options, creator, time and 0 uses; no two triggers are ever equal ignoring case |
| AutoResponders.Registry.Remove | commands/autoresponder/autoresponder.js:104-120 | the first responder whose trigger equals ignoring case is removed, and an unknown trigger is refused with nothing changed; the uniqueness invariant is kept |
| AutoResponders.Registry.Listed | commands/autoresponder/autoresponder.js:126-145 | an empty list is refused; otherwise one line per responder, in order, each response cut to at most 100 UTF-16 code units and shown whole when it fits |
| AutoResponders.Registry.SetEnabled | commands/autoresponder/autoresponder.js:158-168 | the enabled flag is the one chosen |
| AutoResponders.Registry.Respond | events/messageCreate.js:332-357 | the first responder that fires, and only that one, sends its response and counts one more use; when none fires nothing changes |
| AdvancedPolls.OptionsCheck | commands/polls/advancedpoll.js:73-87 | a poll is accepted exactly when it has 2 to 10 options; more than 10 and fewer than 2 get their own refusals, the upper bound checked first |
| AdvancedPolls.ButtonIdNamesOption | commands/polls/advancedpoll.js:118-123 | a vote button's id is "poll_", the poll id and "_" followed by exactly the digits of the option index, which read back as that index |
| AdvancedPolls.ButtonIds | commands/polls/advancedpoll.js:111-124 | one button id per option, in option order |
| AdvancedPolls.ButtonRows | commands/polls/advancedpoll.js:107-129 | the rows hold exactly the option buttons in order; every row has 1 to 5 buttons and every row but the last has 5 |
| AdvancedPolls.Tally | commands/polls/advancedpoll.js:260-277 | each option's result is the number of votes cast for its index over all voters; the maximum is at least every count, including indices outside the options, and is 0 or attained |
| AdvancedPolls.CrownedIsMostVoted | commands/polls/advancedpoll.js:276-292 | on the tally of the votes, an option wears the crown (its count equals the maximum and someone voted) exactly when it was voted for and no index received more votes |
| AdvancedPolls.NoVotesNoCount | commands/polls/advancedpoll.js:144 | with no recorded votes, as the stored polls always are, every index counts 0 votes, so no option is crowned |
| AdvancedPolls.DurationParts | commands/polls/advancedpoll.js:326-339 | formatDuration shows days and hours when there is a whole day, else hours and minutes when there is a whole hour, else minutes; each part is the floored quotient and the lower parts are remainders below 24 or 60 |
| AdvancedPolls.Registry.constructor | commands/polls/advancedpoll.js:56-58 | a new poll list is empty and no poll holds a vote |
| AdvancedPolls.Registry.Create | commands/polls/advancedpoll.js:60-152 | the parsed options are checked; an accepted poll is appended with its options, an empty vote map, the multiple flag, creator, time and an end time only for a positive duration; no poll ever holds a vote |
| AdvancedPolls.Registry.EndCheck | commands/polls/advancedpoll.js:165-187 | refused when no running poll has the id, then refused unless the caller created it or can manage messages |
| AdvancedPolls.Registry.EndPoll | commands/polls/advancedpoll.js:235-315 | only the first running poll with the id changes: a lost channel or message just marks it ended; after a successful edit it is ended at `now`; a failed edit leaves it running |
| AdvancedPolls.Registry.Listed | commands/polls/advancedpoll.js:199-208 | the listed polls are exactly the polls not yet ended, in their stored order |
| Afk.DisplayName | commands/utility/afk.js:26 | the name shown is the nickname when there is a non-empty one, and the username otherwise |
| Afk.AfkNickname | commands/utility/afk.js:22-31 | the nickname is changed exactly when the member is manageable, not already tagged "[AFK]" and "[AFK] " plus the display name fits 32 UTF-16 code units; the new nickname is that text, starts with the tag and fits |
| Afk.SetAfk | commands/utility/afk.js:10-31 | the AFK record is set, with the reason or "AFK" and the time, whatever happens to the nickname, which follows the prefix rule |
| Afk.ReturnNickname | events/messageCreate.js:73-79 | a manageable member whose nickname starts with "[AFK]" gets the nickname with the first "[AFK] " removed, reset when that equals the username; nobody else is touched |
| Afk.ReturnFromAfk | events/messageCreate.js:65-79 | only an active AFK record changes: its status goes off with reason and time kept, and the nickname rule applies; otherwise nothing changes |
| Afk.StripTag | events/messageCreate.js:77 | removing the first "[AFK] " from "[AFK] " plus a name gives back the name |
| Afk.AfkRoundTrip | commands/utility/afk.js:25-29 | going AFK and coming back restores the nickname: a member shown by their nickname gets it back, one shown by their username has it reset |
| Afk.MinutesAway | events/messageCreate.js:93 | the minutes shown are the floor of the elapsed milliseconds divided by 60000 |
| MessageEvents.InitialProgress | utils/database.js:61-66 | a new experience record satisfies the level invariant: level at least 1, current experience below the next level's need, total equal to what the levels so far needed plus the current experience |
| MessageEvents.LevelUpArithmetic | events/messageCreate.js:122-127 | reaching level n + 1 needs what level n needed plus n times 100, so a level-up keeps the total consistent |
| MessageEvents.AwardXp | events/messageCreate.js:107-127 | within a minute of the last award nothing changes; otherwise the earned amount goes to the current and total experience, the time is recorded, and a level is gained, at most one, exactly when the current experience reaches level times 100, which is then subtracted; the level invariant is kept |
| MessageEvents.LevelReward | events/messageCreate.js:133-134 | a reward role exists for a level exactly when the level map has a non-empty role id for it, and it is that id |
| MessageEvents.HandleLeveling | events/messageCreate.js:24-26 | nothing happens unless the level system exists and is enabled; when it is, a message within a minute of the last award changes nothing, and otherwise the earned amount goes to the xp and the total, the time is recorded and a level is gained exactly when the xp reaches the threshold; a level-up reports the reward role of the new level, and no level-up reports none |
| MessageEvents.CommandName | events/messageCreate.js:29-31 | a name is read exactly from messages starting with "!", and it is lower case without spaces |
| MessageEvents.CommandOfMessage | events/messageCreate.js:29-31 | "!name args" invokes the lower-cased name when the name has no white space and the arguments do not end in white space |
| MessageEvents.CustomResponse | events/messageCreate.js:33-36 | a response is sent exactly when the message names a stored custom command, and it is that command's response |
| MessageEvents.TagKey | events/messageCreate.js:40-41 | a key is read exactly from messages starting with "?"; it is the trimmed rest in lower case |
| MessageEvents.TagKeyIgnoresCase | events/messageCreate.js:41 | "?key" looks up the trimmed, lower-cased key, so the case of the key does not matter |
| MessageEvents.HandleTag | events/messageCreate.js:39-49 | a key naming a stored tag sends its content and adds exactly one use to that tag alone; any other message changes nothing |
| MessageEvents.HandleAutoResponders | events/messageCreate.js:51-54 | nothing happens unless the section exists and is enabled; then the first responder that fires sends its response and counts one use; the enabled flag never changes |
| Backups.SaveChannel | commands/backup/backup.js:252-284 | a saved channel keeps name, type, position, parent and overwrites; text channels (type 0) and only they record topic, nsfw and slow mode, voice channels (type 2) and only they record bitrate, user limit and region |
| Backups.KeptRolesCorrect | commands/backup/backup.js:288-290 | the roles a backup keeps are exactly the guild's roles that are neither managed nor @everyone, ordered by position, highest first |
| Backups.CreateBackup | commands/backup/backup.js:230-311 | the backup carries the id, name, icon, time and bot id; channel k is the saved form of cache channel k, role k the saved form of kept role k, and the emojis are the guild's in order |
| Backups.Registry.constructor | commands/backup/backup.js:46-48 | a backups list starts empty |
| Backups.Registry.Create | commands/backup/backup.js:50-69 | a snapshot taken is appended as exactly one new entry; a failed snapshot changes nothing |
| Backups.Registry.ListCheck | commands/backup/backup.js:74-79 | listing is refused exactly when there are no backups |
| Backups.Registry.Lookup | commands/backup/backup.js:103-109 | the backup load and info use is the first one with the id, and none is found exactly when no backup has it |
| Backups.Registry.Delete | commands/backup/backup.js:182-191 | the first backup with the id is removed, leaving one fewer; an unknown id is refused with no change |
| Channels.ChannelTypeOf | commands/channels/channel.js:76-95 | the type option gives one of the five channel types, and any unlisted option gives a text channel |
| Channels.TypeName | commands/channels/channel.js:270-285 | the name shown is "Unknown" exactly for a type outside the five |
| Channels.CreatedTypesAreNamed | commands/channels/channel.js:76-95 | every type create can make has a name in info, and different type options give different types |
| Channels.DeleteCheck | commands/channels/channel.js:120-141 | delete succeeds exactly when the channel is deletable and the platform call succeeds; a channel that is not deletable is refused first |
| Channels.EditOptions | commands/channels/channel.js:149-169 | a channel that is not manageable is refused; with no name, parent or nsfw there is nothing to edit; otherwise the options hold the name when non-empty, the parent when given and nsfw only for a text channel |
| Channels.NsfwAloneOnVoiceEditsNothing | commands/channels/channel.js:157-169 | nsfw alone on a voice channel passes the guard but edits nothing |
| Channels.InfoExtraOf | commands/channels/channel.js:205-215 | info adds nsfw and topic exactly for text and announcement channels, bitrate and user limit exactly for voice and stage channels |
| Common.LowerChar | commands/tags/tag.js:49 | lower-casing turns exactly the ASCII capitals into their lower-case counterparts and keeps every other character |
| Common.ToLower | commands/tags/tag.js:49 | the lower-cased name has the same length, no ASCII capital, and lower-cases each character in place |
| Common.ToLowerIdempotent | commands/autoresponder/autoresponder.js:79 | lower-casing twice is lower-casing once |
| Common.ToLowerOfLower | commands/automod/automod.js:394-395 | lower-casing a lower-case name changes nothing |
| Common.ToLowerAppend | events/messageCreate.js:41 | lower-casing distributes over concatenation |
| Common.TrimStart | events/messageCreate.js:41 | trimming the front drops exactly the leading white space |
| Common.TrimEnd | events/messageCreate.js:41 | trimming the back drops exactly the trailing white space |
| Common.Trim | events/messageCreate.js:41 | the trimmed key is a slice of the text that neither starts nor ends with white space |
| Common.TrimRemovesOnlySpace | events/messageCreate.js:41 | everything before and after that slice is white space |
| Common.FilterSubsequence | commands/polls/advancedpoll.js:201 | filtering keeps the order of the elements it keeps |
| Common.TrimOfAllSpace | commands/polls/advancedpoll.js:68-71 | an option of white space only trims to the empty string |
| Common.TrimKeepsClean | commands/polls/advancedpoll.js:68-71 | a text without surrounding white space is its own trim |
| Common.FindFrom | events/messageCreate.js:77 | the search finds the first occurrence at or after the start, and reports none exactly when there is none |
| Common.Find | events/messageCreate.js:77 | the search finds the first occurrence, and none exactly when the pattern does not occur |
| Common.ReplaceFirstAbsent | commands/welcome/welcomeimage.js:298 | replacing a placeholder that does not occur changes nothing |
| Common.ReplaceFirstShape | commands/welcome/welcomeimage.js:298 | replacing replaces only the first occurrence, by the replacement with its "$" patterns expanded, and keeps the rest of the text, later occurrences included |
| Common.SubstitutionOfPlain | commands/welcome/welcomeimage.js:298 | a replacement without "$" is inserted as it is, whatever the match and its surroundings |
| Common.SubstitutionOfDigits | commands/stats/serverstats.js:93 | a decimal count is inserted as it is |
| Common.ReplaceFirstAt | commands/stats/serverstats.js:93 | knowing the first occurrence determines the replaced text |
| Common.ReplaceFirstPrefix | events/messageCreate.js:77 | removing the first occurrence of a prefix strips that prefix |
| Common.Split | commands/polls/advancedpoll.js:68 | splitting on a bar keeps every piece, empty ones included, and no piece holds the separator |
| Common.IndexOfChar | commands/polls/advancedpoll.js:68 | the separator found is its first occurrence |
| Common.JoinSplit | commands/polls/advancedpoll.js:68 | joining the pieces of a split gives back the text |
| Common.FirstPiece | events/messageCreate.js:30-31 | the first piece is a prefix without the separator, followed by the separator when shorter than the text |
| Common.FirstPieceIsSplitHead | events/messageCreate.js:30-31 | the first piece is the head of the split |
| Common.SplitJoin | commands/polls/advancedpoll.js:68 | splitting joined pieces that lack the separator gives the pieces back |
| Common.OptionList | commands/polls/advancedpoll.js:68-71 | every option kept is non-empty, holds no bar and no surrounding white space |
| Common.OptionListRoundTrip | commands/utility/poll.js:30-33 | clean options joined with a bar are parsed back to themselves |
| Common.HexColourIgnoresCase | commands/roles/role.js:90-95 | a colour the case-insensitive pattern accepts is still accepted in lower case |
| Common.Truncate100 | commands/roles/rolemenu.js:148 | a text over 100 UTF-16 code units becomes its longest prefix of at most 97 units and "...", 99 or 100 units in all; a shorter one is kept |
| Common.Truncate100OfBmp | commands/roles/rolemenu.js:148 | for a text of more than 100 characters below U+10000 the result is exactly its first 97 characters and "..." |
| Common.JsLength | commands/voice/name.js:42 | the UTF-16 length lies between the character count and twice it, and is 0 only for the empty text |
| Common.JsLengthAppend | commands/utility/afk.js:26-27 | the UTF-16 length of a concatenation is the sum of the lengths |
| Common.JsLengthOfBmp | commands/voice/name.js:42 | text below U+10000 has one code unit per character |
| Common.JsPrefix | commands/roles/rolemenu.js:148 | the result is a prefix of the text, fits the unit budget, and is the longest such prefix: the next character would exceed it |
| Common.JsPrefixOfShort | commands/roles/rolemenu.js:148 | a text within the budget is its own prefix |
| Common.DigitChar | commands/polls/advancedpoll.js:118 | a digit below ten renders as a digit character |
| Common.NatToString | commands/polls/advancedpoll.js:118 | a number renders as a non-empty string of digits, one digit below ten |
| Common.NatToStringRoundTrip | commands/polls/advancedpoll.js:118 | reading a rendered number back gives the number, so different indices give different button ids |
| Common.IndexOf | commands/automod/automod.js:305-306 | the position reported is the first occurrence, and -1 exactly when the element is absent |
| Common.RemoveAt | commands/automod/automod.js:307 | splicing one position keeps the elements before it and shifts those after it down by one |
| Common.RemoveAtMultiset | commands/automod/automod.js:307 | splicing one position removes exactly that element |
| Common.RemoveAtNoDups | commands/automod/automod.js:307 | splicing a duplicate-free list keeps it duplicate-free and drops the element entirely |
| Common.AppendIfAbsent | commands/automod/automod.js:270-273 | an id is appended only when absent, and is present afterwards |
| Common.AppendIfAbsentNoDups | commands/automod/automod.js:270-273 | appending only when absent keeps an id list duplicate-free |
| Common.RemoveFirst | commands/automod/automod.js:305-310 | removing an absent element changes nothing, and a present one shortens the list by one |
| Common.RemoveFirstMultiset | commands/automod/automod.js:305-310 | removal takes away exactly one occurrence |
| Common.RemoveFirstNoDups | commands/automod/automod.js:305-310 | on a duplicate-free list the element is gone afterwards and every other element stays |
| Common.FindIndex | commands/backup/backup.js:182 | the position reported is the first one satisfying the test, and -1 exactly when none does |
| Common.FindIndexIsFirst | commands/backup/backup.js:182 | the first position satisfying the test is the one reported |
| Common.FindIndexNone | commands/backup/backup.js:183 | when nothing satisfies the test, -1 is reported |
| Common.Filter | commands/backup/backup.js:289 | the filtered list keeps exactly the elements satisfying the test, no more than were there |
| Common.FilterAll | commands/utility/poll.js:33 | filtering a list whose every element passes changes nothing |
| Common.FilterPartition | commands/giveaway/giveaway.js:254-263 | filtering by a test and by its negation splits the list in two |
| Common.FilterSame | commands/giveaway/giveaway.js:254-263 | filtering by two tests that agree gives the same list |
| Common.FilterAppend | commands/giveaway/giveaway.js:254-263 | filtering a list extended at the end extends the result likewise |
| Common.Take | commands/economy/leaderboard.js:19 | the first n entries are kept, or all when there are fewer |
| CustomCommands.Registry.constructor | commands/custom/create.js:30-32 | a custom-command dictionary starts empty and all its names are lower case |
| CustomCommands.Registry.Create | commands/custom/create.js:36-52 | the lower-cased name is stored with response, creator and time exactly when it is not taken; a taken name is refused with no change; names stay lower case |
| CustomCommands.Registry.Delete | commands/custom/create.js:57-68 | the lower-cased name is removed exactly when present; an unknown name is refused with no change |
| Economy.TimeLeft | commands/economy/daily.js:16 | the time left is positive and ends the cooldown exactly |
| Economy.HoursMinutes | commands/economy/daily.js:17-18 | the hours and minutes shown are the whole hours of the wait and the whole minutes left over, below 60 |
| Economy.MinutesSeconds | commands/economy/work.js:16-18 | the minutes and seconds shown are the whole minutes of the wait and the whole seconds left over, below 60 |
| Economy.DailyWaitAtMostADay | commands/economy/daily.js:15-18 | a refused claim is told to wait at most 24 hours and 0 minutes |
| Economy.WorkWaitAtMostHalfAnHour | commands/economy/work.js:15-18 | refused work is told to wait at most 30 whole minutes |
| Economy.Daily | commands/economy/daily.js:12-29 | on cooldown the claim is refused with the time left and nothing changes; otherwise the reward is added and the claim time recorded, which starts a new cooldown |
| Economy.Work | commands/economy/work.js:12-45 | an unset last-work time never blocks; on cooldown work is refused with the time left and nothing changes; otherwise the earnings are added and the time recorded |
| Economy.Pay | commands/economy/pay.js:18-47 | paying yourself or a bot is refused before any record is made; a sender who cannot cover the amount is refused with both balances unchanged; otherwise the sender loses and the recipient gains the amount, the sum is kept and the sender stays non-negative; only the two balances are written, so daily and work times and buffs stay; no other user record changes |
| Economy.PricesPositive | commands/economy/shop.js:5-35 | every item of the shop costs something |
| Economy.FindItem | commands/economy/shop.js:75-82 | an item is found exactly when the shop lists its id |
| Economy.RoleIdFor | commands/economy/shop.js:98-105 | exactly the VIP and custom-colour items grant a role |
| Economy.Outcome | commands/economy/shop.js:96-141 | a role item whose role call fails fails; the lootbox is opened with its reward; everything else succeeds |
| Economy.Buy | commands/economy/shop.js:74-144 | an unknown item is refused before the record is made; a short balance is refused with nothing changed; a failed role grant takes nothing; the lootbox changes the balance by reward less price; any other success takes the price once; the balance stays non-negative; only double coins sets its buff, to a day from now; only the balance and the buffs are written, so daily and work times stay |
| Economy.Purchase | commands/economy/shop.js:96-141 | once the balance covers the price: a failed role grant leaves the record as it was, the lootbox adds its reward less the price, any other success takes the price once, the balance stays non-negative, and only double coins sets its buff |
| Economy.Autocomplete | commands/economy/shop.js:50-53 | the choices are exactly the shop items whose name contains the typed text, ignoring case |
| Economy.AutocompleteEmpty | commands/economy/shop.js:52 | typing nothing offers every item |
| Economy.AutocompleteIgnoresCase | commands/economy/shop.js:52 | the typed text's case does not change the choices |
| Giveaways.Ids | commands/giveaway/giveaway.js:301 | the ids listed are those of the users, in order |
| Giveaways.EligibleCorrect | commands/giveaway/giveaway.js:254-263 | an id is eligible exactly when some entrant with it is not a bot and, if the required role resolves, holds it |
| Giveaways.Draws | commands/giveaway/giveaway.js:279-283 | there are as many winners as draws, and the pool left is smaller by as many |
| Giveaways.DrawsPartition | commands/giveaway/giveaway.js:279-283 | the winners and what is left of the pool together are the pool |
| Giveaways.DrawsDistinct | commands/giveaway/giveaway.js:279-283 | from a pool without repeats nobody wins twice, and no winner stays in the pool |
| Giveaways.DrawWinners | commands/giveaway/giveaway.js:276-283 | the loop draws the smaller of the winner count and the pool size, and its winners and leftovers are those of the draws |
| Giveaways.DurationCheck | commands/giveaway/giveaway.js:74-88 | a duration is accepted exactly when it parses to at least 10000 ms; a parse error and a short or missing number are refused with their own replies |
| Giveaways.Registry.constructor | commands/giveaway/giveaway.js:61-63 | a giveaways list starts empty |
| Giveaways.Registry.Start | commands/giveaway/giveaway.js:65-128 | an accepted duration appends one running giveaway ending the duration after now, with the description or its default; a refused one changes nothing |
| Giveaways.Registry.EndGiveaway | commands/giveaway/giveaway.js:219-302 | only the first running giveaway for the message is touched, and it always ends, also when channel, message or reaction is gone; with entrants the winners are drawn from the eligible ones and the stored winners field gets the entrants not drawn |
| Giveaways.Registry.EndCheck | commands/giveaway/giveaway.js:143-149 | ending is allowed exactly when a running giveaway exists for the message |
| Giveaways.Registry.RerollCheck | commands/giveaway/giveaway.js:163-177 | reroll is refused for an unknown message and for a giveaway not yet ended, and allowed exactly for an ended one |
| Giveaways.Registry.Reroll | commands/giveaway/giveaway.js:306-352 | for the first ended giveaway for the message the smaller of the count and the eligible entrants are drawn and nothing is stored; otherwise nobody is drawn |
| Giveaways.Registry.Listed | commands/giveaway/giveaway.js:187 | the list shows exactly the giveaways not ended, in their stored order |
| InteractionEvents.ButtonRole | events/interactionCreate.js:55-56 | a button toggles a role exactly when its id starts with "role_", and the role is the rest of the id |
| InteractionEvents.SetupButtonToggles | events/interactionCreate.js:55-56 | the k-th button that reaction-role setup posts toggles the role of slot k |
| InteractionEvents.PressRoleButton | events/interactionCreate.js:57-68 | the member holds the role afterwards exactly when they did not before, and every other role is kept |
| InteractionEvents.PressTwice | events/interactionCreate.js:57-68 | pressing the same role button twice gives the member back their roles |
| InteractionEvents.PanelRefusal | events/interactionCreate.js:71-105 | a panel button passes exactly when the caller is in a voice channel, the system is on, the channel is registered, and the caller owns it or pressed claim |
| InteractionEvents.LockButton | events/interactionCreate.js:592-611 | past the guard and once the permission change succeeded, the channel's locked flag flips and nothing else in the registry changes; otherwise the registry is unchanged |
| InteractionEvents.ClaimButton | events/interactionCreate.js:717-737 | claim is refused to the owner and while the owner is in the channel; otherwise the caller becomes owner, also when granting the permissions then fails, and nothing else changes |
| InteractionEvents.RenameForm | events/interactionCreate.js:759-812 | only the registered owner's rename is stored, and only when the platform renamed the channel; otherwise the registry is unchanged |
| InteractionEvents.Leading | events/interactionCreate.js:820 | the digits read are the longest prefix of digit characters |
| InteractionEvents.ParseIntAfterSpaces | events/interactionCreate.js:820 | white space in front of the text does not change what it parses to |
| InteractionEvents.MagnitudeOfDigits | events/interactionCreate.js:820 | digits followed by a non-digit other than "x" read as their value |
| InteractionEvents.ParseIntOfDigits | events/interactionCreate.js:820 | digits parse to their value, whatever non-digit text other than "x" follows (and, by ParseIntAfterSpaces, after any white space too) |
| InteractionEvents.ParseIntOfNegativeDigits | events/interactionCreate.js:820 | a minus sign in front of the digits gives the negated value |
| InteractionEvents.ParseIntOfNumeral | events/interactionCreate.js:820 | a number written in decimal parses back to that number, whatever non-digit text follows |
| InteractionEvents.ParseIntOfNegativeNumeral | events/interactionCreate.js:820 | a written number with a minus sign parses to its negation |
| InteractionEvents.ParseIntOfWord | events/interactionCreate.js:820-823 | text starting with something other than white space, a sign or a digit is not a number, so the form refuses it |
| InteractionEvents.LimitForm | events/interactionCreate.js:817-870 | text that is not a number in 0..99 is refused before any other check; then only the registered owner's limit is stored, once the platform set it, 0 being reported as no limit; otherwise the registry is unchanged |
| InteractionEvents.LimitFormAcceptsNumerals | events/interactionCreate.js:820-823 | every limit 0..99 typed as its digits gets past the form's validation |
| InteractionEvents.MusicControlOf | events/interactionCreate.js:319-445 | each of the eleven dashboard controls is chosen by exactly its button id, and every other id chooses none |
| InteractionEvents.MusicButton | events/interactionCreate.js:307-470 | without a queue every "music_" id but the queue view, unknown ids included, is refused as no playback, and the queue view answers that the queue is empty; with a queue an unknown id is ignored and changes nothing; previous and lyrics answer not implemented and skip answers skipped; play/pause and loop flip their flag and report it; volume moves by ten within 0..100 and is refused at the bound; shuffle keeps the head and shuffles the rest with the drawn indices, a permutation, and always answers shuffled; stop clears the songs and drops the queue; the queue view shows the first ten and the count of the rest; now playing names the head song or answers that nothing plays; each queue field is written only by the buttons that own it (playing by play/pause, loop by loop, volume by the two volume buttons, the songs by shuffle and stop) |
| InteractionEvents.SelectReachesItsMenu | events/interactionCreate.js:515-516 | the select a role menu posts is routed back to that menu |
| InteractionEvents.RoleIds | events/interactionCreate.js:540 | the ids are those of the menu's roles, in order |
| InteractionEvents.RoleMenuSelect | events/interactionCreate.js:515-557 | no role menus or an unknown menu is refused with no role call; otherwise a single-choice menu removes every menu role held but not chosen, then every chosen role not held is added, in order |
| InteractionEvents.SingleChoiceOutcome | events/interactionCreate.js:543-557 | after a choice in a single-choice menu the member holds exactly the chosen roles among the menu's, and keeps every role outside it |
| InteractionEvents.MultipleChoiceOutcome | events/interactionCreate.js:551-557 | a multiple-choice menu takes nothing away: the member ends with their roles plus the chosen ones |
| Leaderboards.OrZero | commands/economy/leaderboard.js:16 | a missing balance counts as 0 |
| Leaderboards.BalanceRows | commands/economy/leaderboard.js:13-17 | row i carries the id of record i and its balance, or 0 when it has none |
| Leaderboards.EconomyTopCorrect | commands/economy/leaderboard.js:13-19 | the board shows the smaller of 10 and the number of users, in non-increasing balance; with the rows left off it is exactly the users' rows; nobody left off has more than anybody shown; equal balances keep their store order |
| Leaderboards.EconomyBoard | commands/economy/leaderboard.js:22-37 | entry i shows the balance of row i and the fetched username, or "Unknown User" when the fetch failed |
| Leaderboards.LevelOrOne | commands/leveling/leaderboard.js:16 | a missing or zero level shows as 1 |
| Leaderboards.XpRows | commands/leveling/leaderboard.js:13-18 | row i carries the id of record i, its level or 1 and its total experience or 0 |
| Leaderboards.LevelTopCorrect | commands/leveling/leaderboard.js:13-20 | the board shows the smaller of 10 and the number of users, in non-increasing total experience; with the rows left off it is exactly the users' rows; nobody left off has more than anybody shown; ties keep their store order |
| Leaderboards.LevelBoard | commands/leveling/leaderboard.js:23-40 | entry i shows the level and experience of row i and the fetched username, or "Unknown User" when the fetch failed |
| Leveling.Settings.constructor | commands/leveling/setup.js:42-48 | a new level system is disabled, with no announcement channel and no rewards |
| Leveling.Settings.Enable | commands/leveling/setup.js:50-55 | enable turns the system on and sets the announcement channel to the one given, or none; the rewards are kept |
| Leveling.Settings.Disable | commands/leveling/setup.js:62-64 | disable turns the system off and changes nothing else |
| Leveling.Settings.AddRole | commands/leveling/setup.js:67-80 | a role the bot cannot manage is refused with no change; otherwise the level's reward becomes the role, replacing any earlier one |
| Leveling.Settings.RemoveRole | commands/leveling/setup.js:83-94 | a level without a reward is refused with no change; otherwise exactly that level's reward is removed |
| Modmail.ReasonOrDefault | commands/modmail/modmail.js:232 | a missing or empty reason becomes "No reason provided." and any other is kept |
| Modmail.Settings.constructor | commands/modmail/modmail.js:79-87 | a new modmail section is disabled, with no category or staff role, nobody blocked and no open thread |
| Modmail.Settings.Setup | commands/modmail/modmail.js:89-97 | setup turns modmail on with the category and staff role given |
| Modmail.Settings.Disable | commands/modmail/modmail.js:103-106 | disable turns modmail off and changes nothing else |
| Modmail.Settings.Close | commands/modmail/modmail.js:112-165 | close outside a thread channel is refused with no change; in one, the entry of a user whose thread is that channel is dropped once the closing notice went out |
| Modmail.Settings.ReplyCheck | commands/modmail/modmail.js:174-185 | reply is allowed exactly in the channel of an open thread |
| Modmail.Settings.BlockUser | commands/modmail/modmail.js:230-276 | an already blocked user is refused with no change; otherwise one block entry with the reason or its default is appended, the user's open thread is dropped unless its channel exists and the notice failed, and nobody is blocked twice |
| Modmail.Settings.Unblock | commands/modmail/modmail.js:282-296 | the user's first block entry is removed, and then they are no longer blocked; a user not blocked is refused with no change |
| Modmail.DmGate | events/messageCreate.js:183-194 | a guild with modmail off is skipped; a blocked user is told the reason of their first block entry; anyone else is forwarded |
| Music.PageCount | commands/music/queue.js:19 | the page count is the number of songs divided by ten, rounded up |
| Music.QueuePage | commands/music/queue.js:11-56 | an empty queue is refused; a page past the last is refused with the page count; otherwise page p shows songs (p-1)*10 up to ten further, numbered from (p-1)*10+1, with the song now playing on page 1 only |
| Music.SongOnItsPage | commands/music/queue.js:32-45 | every song appears on exactly the page its position says, with its position plus one as its number |
| Music.Swap | events/interactionCreate.js:403-406 | a swap keeps the length and the songs |
| Music.ShuffledPermutation | events/interactionCreate.js:398-408 | the shuffle is a permutation of the songs, whatever was drawn |
| Music.Queue.constructor | commands/music/play.js:58-68 | a new queue is empty, at volume 50, not playing and not looping (its loop flag is unset, which reads as off) |
| Music.Queue.PlayPause | events/interactionCreate.js:327-340 | play/pause flips the playing flag |
| Music.Queue.ToggleLoop | events/interactionCreate.js:391-392 | the loop button flips the loop flag |
| Music.Queue.VolumeDown | events/interactionCreate.js:361-375 | above 0 the volume goes down by ten, not below 0; at 0 it is refused; the volume stays within 0..100 |
| Music.Queue.VolumeUp | events/interactionCreate.js:376-390 | below 100 the volume goes up by ten, not above 100; at 100 it is refused; the volume stays within 0..100 |
| Music.Queue.Shuffle | events/interactionCreate.js:398-408 | the song at the head stays, the rest is shuffled behind it, and the tail is a permutation of the old tail |
| Music.ShuffleCopy | events/interactionCreate.js:401-407 | the copied tail, shuffled, is the shuffle that the draws specify |
| Music.ShuffleInPlace | events/interactionCreate.js:403-406 | the swap loop from the last position down to 1 leaves the array holding the shuffle of its old contents that the draws specify |
| Music.DashboardQueue | events/interactionCreate.js:425-431 | the queue view shows the first ten songs and the number of songs beyond them |
| Music.Queues.constructor | commands/music/play.js:51-53 | the client starts with no queues |
| Music.Queues.Stop | events/interactionCreate.js:350-356 | stop clears the guild's songs and drops its queue, leaving the other guilds' queues |
| QuickPoll.MakePoll | commands/utility/poll.js:11-56 | no options, or an empty options string, gives a yes/no poll with the two thumbs; more than ten options is refused; otherwise option i is shown after the i-th number emoji and those emojis are the reactions, in order |
| QuickPoll.NoLowerBound | commands/utility/poll.js:30-41 | a poll with fewer than two options left after the blanks are dropped is still posted |
| ReactionEvents.RoleRequest | events/messageReactionAdd.js:35-52 | a role is requested exactly when the member was found and some guild entry binds that message to the emoji's id, or its name when it has none |
| ReactionEvents.ReactionAdd | events/messageReactionAdd.js:7-146 | a bot's reaction or a failed fetch does nothing; otherwise the role of the first matching entry is requested, and the starboard rules run: skipped when off, another emoji, an ignored channel, a bot's message or the board itself; posted with its count once it reaches the threshold for a message not yet starred; its count updated when it is already starred; the settings never change |
| ReactionEvents.ReactionRemove | events/messageReactionRemove.js:6-115 | a bot's reaction or a failed fetch does nothing; otherwise the same role is asked to be taken back, and the starboard rules run: skipped when off, another emoji, an ignored channel or a message not starred; a missing count counts as 0; under the threshold the board post and its entry are removed; otherwise the entry's count is updated; nothing is ever posted |
| ReactionEvents.FirstBindingDecides | events/messageReactionAdd.js:40-45 | the first entry matching the message and emoji decides the role, for adding and removing alike |
| ReactionRoles.BindingsAreChosenSlots | commands/reaction-roles/setup.js:52-67 | the bindings are exactly the slots with both a role and an emoji, in slot order, each giving that role and emoji |
| ReactionRoles.Collect | commands/reaction-roles/setup.js:52-67 | the setup stops with no bindings exactly when a chosen slot's role is not assignable by the bot; otherwise it yields the bindings of the chosen slots |
| ReactionRoles.ButtonIds | commands/reaction-roles/setup.js:84-92 | one button per binding, in order, whose id is "role_" then the role id |
| ReactionRoles.ButtonIdRoundTrip | commands/reaction-roles/setup.js:87 | every button id starts with "role_" and the role id follows it |
| ReactionRoles.EmojiKey | events/messageReactionAdd.js:37 | the key is the emoji's id when it has a non-empty one, and its name otherwise |
| ReactionRoles.LookupRole | events/messageReactionAdd.js:40 | the role found is that of the first entry matching the message and key; none is found exactly when no entry matches or the guild has no entries |
| Common.DelayCheck | commands/reminder/reminder.js:44-51 | a parsed time is in the window exactly when it is a number of milliseconds between the bounds; a parse error is told apart from every other refusal |
| Reminders.TimeCheck | commands/reminder/reminder.js:42-58 | the time is accepted exactly when it parses to between one second and thirty days; a parse error is the format error and any other value is out of range |
| Reminders.MaxId | commands/reminder/reminder.js:65 | the result is an id of the list that none of its reminders exceeds |
| Reminders.NextId | commands/reminder/reminder.js:65 | a new id exceeds every id in the list, and is 1 for an empty list |
| Reminders.Registry.constructor | commands/reminder/reminder.js:34-36 | a user's reminder list starts empty |
| Reminders.Registry.Set | commands/reminder/reminder.js:38-90 | an accepted time appends one open reminder with the next id, due the duration after now; a refused one changes nothing; ids stay unique |
| Reminders.Registry.Listed | commands/reminder/reminder.js:91-114 | the list shows exactly the reminders not completed, in their stored order |
| Reminders.Registry.Cancel | commands/reminder/reminder.js:115-135 | the first open reminder with the id is marked completed and nothing else changes; with none it is refused; ids stay unique |
| Reminders.Registry.SendReminder | commands/reminder/reminder.js:140-175 | a reminder cancelled or already sent does nothing; otherwise it is marked completed first, then sent in its channel, else by direct message when the channel is gone, and lost when the guild or the user cannot be fetched |
| RoleMenus.CollectedIsChosenSlots | commands/roles/rolemenu.js:99-118 | the collected roles are exactly the slots given both a role and a description, in slot order, each giving that role's id and name and the description |
| RoleMenus.CollectRoles | commands/roles/rolemenu.js:99-118 | the collection stops with nothing exactly when a chosen slot's role is not assignable by the bot, and otherwise yields the collected roles |
| RoleMenus.MaxValues | commands/roles/rolemenu.js:144 | a menu that allows several picks allows all its roles, and otherwise one |
| RoleMenus.BuildSelect | commands/roles/rolemenu.js:139-152 | the select id is "rolemenu_" then the menu id; there is one option per role in order, captioned with its name, valued with its id, and described by its description cut to at most 100 UTF-16 code units, kept as is when it fits |
| RoleMenus.Registry.constructor | commands/roles/rolemenu.js:87-89 | a guild's role-menu list starts empty |
| RoleMenus.Registry.Create | commands/roles/rolemenu.js:91-179 | an unassignable role refuses the menu; a failed post refuses it; otherwise one menu with the generated id, the posted message, the collected roles and the multiple flag (off unless given as true) is appended |
| RoleMenus.Registry.Add | commands/roles/rolemenu.js:180-265 | an unknown menu, a role already in it or an unassignable role is refused with no change; otherwise the role is appended to the first menu with the id, and stays even when editing the message fails; role ids stay unique |
| RoleMenus.Registry.Remove | commands/roles/rolemenu.js:266-345 | an unknown menu or a role not in it is refused with no change; otherwise the role is spliced out, and removing the only role is refused only after the splice, so the menu is left with no roles |
| RoleMenus.Registry.Delete | commands/roles/rolemenu.js:346-380 | the first menu with the id is removed and the rest keep their order; an unknown id is refused with no change |
| RoleMenus.Registry.ListCheck | commands/roles/rolemenu.js:381-390 | the list is refused exactly when there are no menus |
| Roles.CreateOptions | commands/roles/role.js:83-117 | the colour defaults to #000000 and both flags to off; a given colour that is not "#" and six hex digits is refused; otherwise the role is created with that name, colour and flags |
| Roles.EditOptions | commands/roles/role.js:144-195 | a role the bot cannot manage is refused first, then an edit with no property, then a colour that is not "#" and six hex digits; otherwise exactly the given properties are passed, and at least one is |
| Roles.ChangeCheck | commands/roles/role.js:118-143 | delete and add go through exactly when the bot manages the role and the platform call succeeds; an unmanageable role is refused first |
| Roles.RemoveCheck | commands/roles/role.js:226-263 | remove goes through exactly when the bot manages the role, the member has it and the call succeeds; the guards come in that order |
| Roles.FilterKeepsSorted | commands/roles/role.js:290-292 | dropping roles from a list sorted by position keeps it sorted |
| Roles.ListedRolesCorrect | commands/roles/role.js:288-300 | the list is ordered by position, highest first, and holds exactly the guild's roles other than @everyone |
| Schedule.TimeCheck | commands/utility/schedule.js:72-86 | the time is accepted exactly when it parses to between ten seconds and thirty days; a parse error is the format error and any other value is out of range |
| Schedule.EmbedCheck | commands/utility/schedule.js:121-150 | an embed is accepted exactly when its time is and its colour, #5865F2 when none is given, is "#" and six hex digits; the time is checked first |
| Schedule.Registry.constructor | commands/utility/schedule.js:63-65 | a guild's scheduled list starts empty |
| Schedule.Registry.Add | commands/utility/schedule.js:67-178 | an accepted message or embed is appended once, due the duration after now, with an embed's colour defaulted; a refused one changes nothing |
| Schedule.Registry.List | commands/utility/schedule.js:179-212 | an empty list is refused; otherwise the stored list is sorted in place, earliest first, as a permutation of itself |
| Schedule.Registry.Cancel | commands/utility/schedule.js:213-233 | the first entry with the id is removed and the rest keep their order; an unknown id is refused with no change |
| ServerStats.StatName | commands/stats/serverstats.js:85 | every statistic has one of the seven type names |
| ServerStats.StatOrderComplete | commands/stats/serverstats.js:85 | setup's order lists every statistic |
| ServerStats.StatOrderDistinct | commands/stats/serverstats.js:85 | setup's order names no statistic twice |
| ServerStats.DefaultFormat | commands/stats/serverstats.js:65-73 | every default format holds the {count} placeholder |
| ServerStats.GetStatCount | commands/stats/serverstats.js:243-267 | each type name gives its count: the member count, the fetched humans, bots or online members, the channel and role counts, the boosts or 0 when missing; an unknown name gives 0 |
| ServerStats.HumansPlusBots | commands/stats/serverstats.js:247-254 | humans and bots together are every fetched member, each counted once |
| ServerStats.ChannelName | commands/stats/serverstats.js:93 | the first {count} of the format is replaced by the count in decimal; a format without it is kept as is |
| ServerStats.AssignedLookup | commands/stats/serverstats.js:86-107 | assigning created ids to distinct statistics in turn maps exactly those statistics, each to its own id |
| ServerStats.SetupNames | commands/stats/serverstats.js:88-93 | setup names one channel per statistic |
| ServerStats.SetupNamesAt | commands/stats/serverstats.js:88-93 | the k-th channel's name is the k-th statistic's format filled with its count |
| ServerStats.Settings.constructor | commands/stats/serverstats.js:60-76 | a new section is disabled, with no category, no channels and no update time, and every statistic has its default format |
| ServerStats.Settings.Setup | commands/stats/serverstats.js:78-124 | one channel per statistic is created in order, named from its format and count; once all succeed the section is enabled with the category, the time and each statistic mapped to its own channel; a failed creation stores nothing |
| ServerStats.Settings.Disable | commands/stats/serverstats.js:125-157 | a disabled section is refused; once the channels are deleted the section is disabled and the map cleared; a failure changes nothing |
| ServerStats.Settings.Customize | commands/stats/serverstats.js:158-203 | a disabled section or a format without {count} is refused with no change; otherwise the statistic's format is replaced, and every format still holds the placeholder; a failed channel rename keeps the new format and answers with an error |
| ServerStats.Settings.Refresh | commands/stats/serverstats.js:204-240 | a disabled section is refused; a successful refresh sets the update time and a failed one leaves it |
| Sorting.InsertBounded | commands/economy/leaderboard.js:18 | inserting an element into a list keeps every key under a bound that the element and the list respect |
| Sorting.InsertSorted | commands/economy/leaderboard.js:18 | inserting into a list sorted by key, largest first, keeps it sorted and adds exactly that element |
| Sorting.SortDescCorrect | commands/economy/leaderboard.js:18 | the numeric descending sort gives a list ordered by key, largest first, that is a permutation of its input |
| Sorting.InsertStable | commands/leveling/leaderboard.js:19 | inserting an element changes the run of elements with a given key only by putting that element first when it has the key |
| Sorting.SortDescStable | commands/roles/role.js:291 | the sort is stable: elements with equal keys keep their input order |
| Starboard.EmojiOrDefault | commands/starboard/starboard.js:98 | a missing or empty emoji becomes the star, and any other is kept |
| Starboard.Settings.constructor | commands/starboard/starboard.js:84-93 | a new section is disabled, with no channel, threshold 3, the star emoji, no ignored channel and nothing starred |
| Starboard.Settings.Setup | commands/starboard/starboard.js:95-110 | setup enables the board with the channel, the threshold and the emoji or its default |
| Starboard.Settings.Disable | commands/starboard/starboard.js:111-119 | disable turns the board off |
| Starboard.Settings.SetThreshold | commands/starboard/starboard.js:120-137 | a disabled board is refused with no change; otherwise the threshold is replaced, within 1..25 |
| Starboard.Settings.SetEmoji | commands/starboard/starboard.js:138-155 | a disabled board is refused with no change; otherwise the emoji is replaced |
| Starboard.Settings.Ignore | commands/starboard/starboard.js:156-181 | a disabled board or a channel already ignored is refused with no change; otherwise the channel is appended, and no channel is ignored twice |
| Starboard.Settings.Unignore | commands/starboard/starboard.js:182-208 | a disabled board or a channel not ignored is refused with no change; otherwise its first occurrence is removed, after which it is no longer ignored |
| Starboard.Settings.ReactionAdded | events/messageReactionAdd.js:53-146 | skipped exactly when the board is off, the emoji differs by name and by text, the channel is ignored, the author is a bot or the message is on the board channel; under the threshold nothing happens; a message not yet starred is posted with its count when the board and the send succeed; a starred one has its count updated when it changed and its post was found |
| Starboard.Settings.ReactionRemoved | events/messageReactionRemove.js:53-115 | skipped exactly when the board is off, the emoji differs, the channel is ignored or the message is not starred; a missing count is 0; under the threshold its entry is dropped once the board is found; otherwise its count is updated when it changed and its post was found; nothing is ever posted |
| Suggestions.StatusOf | commands/suggestions/suggestion.js:218 | every verdict moves a suggestion out of pending |
| Suggestions.NoteOrDefault | commands/suggestions/suggestion.js:204 | a missing or empty note becomes "No reason provided." for a rejection and "No comment provided." for the other verdicts; any other note is kept |
| Suggestions.NewSuggestion | commands/suggestions/suggestion.js:183-193 | a new suggestion is pending, with no votes and no resolution, created by the author at the time given |
| Suggestions.Resolve | commands/suggestions/suggestion.js:217-221 | a verdict sets the status, the note, who resolved it and when, and leaves every other field as it was |
| Suggestions.Settings.constructor | commands/suggestions/suggestion.js:99-105 | a new section is disabled, with no channel and no suggestion |
| Suggestions.Settings.Setup | commands/suggestions/suggestion.js:107-118 | setup enables the system in the channel given |
| Suggestions.Settings.Disable | commands/suggestions/suggestion.js:119-127 | disable turns the system off |
| Suggestions.Settings.Create | commands/suggestions/suggestion.js:128-201 | a disabled system or a missing channel is refused with no change; otherwise one new pending suggestion is appended |
| Suggestions.Settings.Review | commands/suggestions/suggestion.js:202-406 | an unknown id is refused with no change; otherwise the first suggestion with the id takes the verdict, and keeps it even when editing its message fails |
| Tags.ListOrder | commands/tags/tag.js:173-195 | no tags is refused; otherwise the names are listed most used first, each tag name exactly once |
| Tags.Used | events/messageCreate.js:43-46 | one use raises that tag's count by one and changes nothing else |
| Tags.Registry.constructor | commands/tags/tag.js:44-46 | a guild's tags start empty |
| Tags.Registry.Create | commands/tags/tag.js:48-72 | the lower-cased name is refused when it exists; otherwise a tag with the content, the creator, the time and no uses is stored under it; names stay lower case |
| Tags.Registry.ChangeCheck | commands/tags/tag.js:76-95 | edit and delete go through exactly when the lower-cased name exists and the user created it or may manage messages; an unknown name is refused first |
| Tags.Registry.Edit | commands/tags/tag.js:73-105 | an allowed edit replaces the content and records the editor and time, keeping the use count and the other tags; a refused one changes nothing |
| Tags.Registry.Delete | commands/tags/tag.js:106-135 | an allowed delete removes exactly that tag; a refused one changes nothing |
| Tags.Registry.Info | commands/tags/tag.js:136-172 | info finds a tag exactly when the lower-cased name exists, and shows that tag |
| Tags.Registry.Use | events/messageCreate.js:40-50 | a message naming a tag sends its content and raises its use count by one; any other name changes nothing |
| Tickets.Settings.constructor | commands/tickets/ticket.js:87-96 | a new section is disabled, with no support role or category, the default welcome, no panel and no open ticket |
| Tickets.Settings.Setup | commands/tickets/ticket.js:98-134 | setup enables the system with the support role, the category and the welcome or its default, keeping panels and open tickets |
| Tickets.Settings.AddPanel | commands/tickets/ticket.js:135-180 | a disabled system is refused with no change; otherwise the posted panel is appended |
| Tickets.Settings.AddCheck | commands/tickets/ticket.js:181-218 | add goes through exactly in an open ticket's channel for a member of the guild; outside a ticket it is refused first |
| Tickets.Settings.RemoveCheck | commands/tickets/ticket.js:219-252 | remove goes through exactly in an open ticket's channel for someone other than its creator; outside a ticket it is refused, and the creator is refused |
| Tickets.Settings.CloseCheck | commands/tickets/ticket.js:253-275 | close asks for confirmation exactly in an open ticket's channel |
| Tickets.Settings.SubmitTicket | events/interactionCreate.js:1086-1213 | a disabled system, a user with an open ticket, a missing category or role or a failed creation is refused with no change, in that order; otherwise the ticket is recorded under the new channel, and each user keeps at most one open ticket |
| Tickets.Settings.ConfirmClose | events/interactionCreate.js:182-231 | a disabled system or a channel that is not a ticket is refused; otherwise the entry is dropped once the message was updated and the channel deleted, and kept otherwise; each user keeps at most one open ticket |
| Tickets.CreateButton | events/interactionCreate.js:130-178 | the create button is refused without an enabled system, refused for a user with an open ticket, and otherwise opens the form |
| Twitch.Registry.constructor | commands/integrations/twitch.js:43-49 | a guild's streamer list starts empty |
| Twitch.Registry.Add | commands/integrations/twitch.js:51-95 | a username already present in any case is refused with no change; otherwise it is appended in lower case with the channel, the message or its default, the time, no notification yet and offline; names stay lower case and distinct |
| Twitch.Registry.Remove | commands/integrations/twitch.js:96-117 | the first streamer with the username in any case is removed and the rest keep their order; an unknown one is refused with no change |
| Twitch.Registry.ListCheck | commands/integrations/twitch.js:118-125 | the list is refused exactly when no streamer is set up |
| Twitch.Registry.AddRefusesPresent | commands/integrations/twitch.js:59-67 | on a consistent list, add refuses exactly the usernames whose lower-case form is stored |
| YouTube.Registry.constructor | commands/integrations/youtube.js:44-49 | a guild's subscription list starts empty |
| YouTube.Registry.Add | commands/integrations/youtube.js:51-94 | a channel id already subscribed is refused with no change; otherwise it is appended with the placeholder name, the Discord channel, the message or its default, the time and no video or notification yet; ids stay distinct |
| YouTube.Registry.Remove | commands/integrations/youtube.js:95-114 | the first subscription with the id is removed and the rest keep their order; an unknown id is refused with no change |
| YouTube.Registry.ListCheck | commands/integrations/youtube.js:115-122 | the list is refused exactly when no channel is subscribed |
| Common.OrDefault | commands/moderation/verify.js:103-105 | a missing or empty option gives the fallback, and any other is kept; the same `option || default` reading applies to the Twitch and YouTube notice messages and the reaction emoji key |
| Verification.Settings.constructor | commands/moderation/verify.js:86-98 | a new section is disabled, of button kind, with the default title and description and no channel, role, question, answer or message |
| Verification.Settings.Setup | commands/moderation/verify.js:100-160 | a role the bot cannot assign is refused with no change; otherwise the system is enabled with the channel, the role, the kind (button by default), the title and description or their defaults and the posted message, keeping any question and answer |
| Verification.Settings.Disable | commands/moderation/verify.js:161-189 | a disabled system is refused; afterwards the system is off either way |
| Verification.Settings.SetQuestion | commands/moderation/verify.js:190-239 | a disabled system is refused with no change; otherwise the question and the lower-cased answer are stored and the kind becomes question, so the stored answer is always lower case |
| Verification.Settings.ManualCheck | commands/moderation/verify.js:240-284 | manual verification goes through exactly when the system is on, the member is in the guild and the role exists; the guards come in that order |
| Verification.ButtonCheck | events/interactionCreate.js:240-275 | the verify button gives the role exactly when the system is on and the role exists |
| Verification.AnswerCheck | events/interactionCreate.js:1215-1260 | the answer form gives the role exactly when the system is on, the lower-cased answer equals the stored one and the role exists; a wrong answer is refused before the role is looked up |
| Verification.AnswerIgnoresCase | events/interactionCreate.js:1230 | after a question with answer a, a submission passes exactly when it equals a ignoring case |
| VoiceMaster.Settings.constructor | commands/voice/setup.js:38-40 | a new section is disabled, with no category or hub and an empty registry |
| VoiceMaster.Settings.Setup | commands/voice/setup.js:33-51 | setup enables the system with the category and hub channel and keeps the registry |
| VoiceMaster.Settings.Disable | commands/voice/setup.js:52-62 | disable turns the system off |
| VoiceMaster.Classify | commands/voice/lock.js:9-33 | the caller is out of voice, in a guild whose system is off, in an unregistered channel, in someone else's channel (naming its owner) or in their own, exactly as the registry says |
| VoiceMaster.NewChannel | events/voiceStateUpdate.js:24-48 | a created channel is owned by the member, named after their username with "'s Channel", unlocked, without a user limit or region |
| VoiceMaster.OwnerGate | commands/voice/lock.js:9-33 | lock, unlock, limit and name go on exactly in the caller's own channel; out of voice, a disabled system, and then an unregistered or foreign channel are refused, the last two alike |
| VoiceMaster.RegisteredOwnerGate | commands/voice/region.js:34-65 | region, permissions and templates go on exactly in the caller's own channel, refusing an unregistered channel apart from a foreign one |
| VoiceCommands.Setup | commands/voice/setup.js:33-51 | the section is created when missing, then enabled with the category and hub, keeping an existing registry |
| VoiceCommands.Disable | commands/voice/setup.js:52-62 | a section never set up is refused; otherwise the system is turned off and the ids and registry are kept |
| VoiceCommands.OwnerRefusal | commands/voice/lock.js:9-33 | an owner command goes on exactly when the system is on and the caller's voice channel is registered to them |
| VoiceCommands.SetLocked | commands/voice/lock.js:6-52 | a refused caller gets the gate's reply; otherwise once the platform accepts, the channel's locked flag is set (unlock.js clears it) and nothing else changes |
| VoiceCommands.Limit | commands/voice/limit.js:8-66 | the limit is within 0..99; once the platform accepts, the entry's user limit is set, and 0 is reported as no limit; a refusal changes nothing |
| VoiceCommands.Rename | commands/voice/name.js:11-65 | after the owner gate, a name over 100 UTF-16 code units is refused; once the platform accepts, the entry's name is set; a refusal changes nothing |
| VoiceCommands.PlatformRegion | commands/voice/region.js:71 | the platform gets no region exactly for "auto", and the choice otherwise |
| VoiceCommands.SetRegion | commands/voice/region.js:31-88 | after the registered-owner gate the platform gets the region, and once it accepts the raw choice is stored in the entry |
| VoiceCommands.Claim | commands/voice/claim.js:8-66 | out of voice, a disabled system, an unregistered channel, the caller as owner and an owner still present are refused in that order; otherwise the caller becomes the owner and nothing else changes |
| VoiceCommands.Overwrite | commands/voice/permissions.js:108-135 | allow sets the one permission to true for the member, deny sets it to false, and reset deletes all the member's overwrites |
| VoiceCommands.PermissionsCheck | commands/voice/permissions.js:60-106 | the permission change goes on exactly for the channel's owner and a member of the guild, after the registered-owner gate |
| VoiceCommands.SpaceCapitals | commands/voice/permissions.js:115 | a space goes before every capital letter and the text never shrinks |
| VoiceCommands.PermissionLabel | commands/voice/permissions.js:114-118 | the label is in lower case, and apart from white space it is the permission name lower-cased |
| VoiceCommands.PrioritySpeakerLabel | commands/voice/permissions.js:24 | the permission PrioritySpeaker reads "priority speaker" |
| VoiceEvents.AfterJoin | events/voiceStateUpdate.js:21-52 | on entering the hub, a channel the platform created is registered to the member and the other entries are kept; otherwise the registry is unchanged; user limits stay valid |
| VoiceEvents.AfterLeave | events/voiceStateUpdate.js:55-68 | a registered channel left empty and deleted is dropped; no other entry is dropped or changed |
| VoiceEvents.VoiceStateUpdate | events/voiceStateUpdate.js:6-71 | without a guild and member or with the system off nothing changes; otherwise the join is handled, then the leave on the result; the settings are kept and user limits stay valid |
| VoiceEvents.JoinThenLeave | events/voiceStateUpdate.js:21-68 | a channel created from the hub and later left empty leaves the registry as it was |
| VoiceTemplates.Registry.constructor | commands/voice/template.js:38-40 | a user's templates start empty |
| VoiceTemplates.Registry.List | commands/voice/template.js:42-59 | no templates is refused; otherwise exactly the saved names are listed |
| VoiceTemplates.Registry.Save | commands/voice/template.js:60-119 | after the registered-owner gate an existing name is refused and the old template kept; otherwise the channel's name, limit, bitrate and region are saved under the name with the time |
| VoiceTemplates.Registry.Load | commands/voice/template.js:120-190 | after the registered-owner gate an unknown template is refused; once the platform accepts, the registry entry takes the template's name and limit and nothing else changes |
| VoiceTemplates.Registry.Delete | commands/voice/template.js:191-210 | an unknown name is refused; otherwise exactly that template is removed |
| WelcomeImage.Settings.constructor | commands/welcome/welcomeimage.js:99-107 | a new section is disabled, with no channel, the default background, the default message and white text |
| WelcomeImage.Settings.Setup | commands/welcome/welcomeimage.js:109-124 | setup enables the card in the channel with the background and the message or its default, keeping the text colour |
| WelcomeImage.Settings.Disable | commands/welcome/welcomeimage.js:125-133 | disable turns the card off |
| WelcomeImage.Settings.TestCheck | commands/welcome/welcomeimage.js:134-163 | the test card is drawn exactly when the card is on and the member is found; a disabled card is refused first |
| WelcomeImage.Settings.SetBackground | commands/welcome/welcomeimage.js:164-181 | a disabled card is refused with no change; otherwise the background is replaced |
| WelcomeImage.Settings.SetMessage | commands/welcome/welcomeimage.js:182-199 | a disabled card is refused with no change; otherwise the message is replaced |
| WelcomeImage.Settings.SetColour | commands/welcome/welcomeimage.js:200-226 | a disabled card or a colour that is not "#" and six hex digits is refused with no change; otherwise it is stored, so the text colour stays valid |
| WelcomeImage.WelcomeText | commands/welcome/welcomeimage.js:298 | a message without either placeholder is drawn as it is |
| WelcomeImage.DefaultWelcomeText | commands/welcome/welcomeimage.js:298 | with the default message, the card reads "Welcome to " then the guild name, ", ", the user name and "!", each name with its "$" patterns expanded against the text around its placeholder |
| WelcomeImage.DefaultWelcomePlain | commands/welcome/welcomeimage.js:298 | names without "$" appear on the default card exactly as they are |
| WelcomeImage.DefaultWelcomePlainUser | commands/welcome/welcomeimage.js:298 | a user name without "$" is inserted as it is, and the guild name is expanded against its surroundings |
| WelcomeImage.DoubledDollar | commands/welcome/welcomeimage.js:298 | "$$" in a name becomes one "$" |
| WelcomeImage.MatchPattern | commands/welcome/welcomeimage.js:298 | "$&" in the guild name becomes the matched "{server}" |
| WelcomeImage.DoubledDollarServer | commands/welcome/welcomeimage.js:298 | a guild named "A$$B" greets "alice" with "Welcome to A$B, alice!" |
| WelcomeImage.MatchPatternServer | commands/welcome/welcomeimage.js:298 | a guild named "x$&y" greets "alice" with "Welcome to x{server}y, alice!" |

## Left out

- File persistence: `load` and `save` read and write a JSON file. The model keeps the document in memory and counts each `save()` in the ghost field `Database.Store.saves`.
- Platform calls: replies, sends, edits, role changes, channel creation and deletion, permission overwrites and member fetches are effects of the chat platform. Their outcomes are handler parameters (`ok`, `posted`, `memberFound` and the like) rather than behaviour. A `send` that fails throws before anything is stored. The creating commands (Giveaways.Registry.Start, AdvancedPolls.Registry.Create, Tickets.Settings.AddPanel, Suggestions.Settings.Create) take the posted message id as a parameter and do not model that failure.
- Randomness and the clock: the amounts drawn for experience, daily, work and lootboxes, the giveaway and shuffle draws, and every generated base-36 id are parameters. So is `Date.now()`, as `now`, constrained to the ranges the source draws from.
- Timers: the `setTimeout` calls are not modelled. They end giveaways (`commands/giveaway/giveaway.js:131`) and polls (`commands/polls/advancedpoll.js:156`), send reminders (`commands/reminder/reminder.js:80`), delete a closed ticket's channel (`events/interactionCreate.js:212`), delete a closed modmail thread's channel (`commands/modmail/modmail.js:155`) and delete the AFK welcome-back reply (`events/messageCreate.js:85`). Where a timer calls a handler that changes the document, that handler is an operation of its own.
- ServerStats.Settings.Setup: every name is taken from one snapshot of the guild. The source counts again before each creation (`commands/stats/serverstats.js:91`), so its "channels" name already includes the three statistic channels created before it; the model's does not.
- Scheduled messages are never sent: `commands/utility/schedule.js` stores, lists and cancels them and sets no timer, and no other file reads `scheduledMessages`. The `Schedule` module therefore models storage only, as the source does.
- Duration parsing: the `ms` library is not part of this model. Its result is the input `Parsed`, which is a parse error, a value that is no number, or a count of milliseconds.
- Floating point: poll percentages and progress bars in commands/polls/advancedpoll.js and the rank-card bar in commands/leveling/rank.js compute with floating point, and only their display text uses them.
- Rendering and media: the canvas welcome card and rank card, and the audio pipeline of commands/music (play, skip, stop, the dashboard refresh), are platform work. The model keeps only their state changes: the queue flags, the volume, the songs and the stop.
- External services: the Last.fm commands, the meme, weather, translate and urban commands call web services or their mocks, and are not part of this model.
- `loadBackup` in commands/backup/backup.js deletes and recreates channels and roles through the platform. It stores nothing, so it is not modelled.
- Display-only output: embeds and list texts are not modelled. This covers the custom-command list, the channel list and info embeds, the reminder and schedule lists and the statistics texts. What is modelled is the data each one shows and the guard that refuses an empty list.
- Field writers and guard-only commands: autorole, welcome, modlog and the Last.fm `set` each write or clear one field of the records already modelled. Voice invite, kick and activity, the moderation commands, the information and fun commands, and the member-join event check guards and then call the platform. None of them is modelled separately.
- Bootstrap: client start-up, command registration and the owner's `eval` command are not modelled.
- Modmail forwarding: `handleModmail` creates threads and relays direct messages through the platform. The model keeps only its gate, `Modmail.DmGate`.
- Common.Trim: white space is the ASCII set plus the no-break space. The other Unicode space characters that JavaScript's `trim` and `parseInt` skip are not included.
- Common.ToLower: only the letters A to Z are folded. JavaScript's `toLowerCase` also folds the other capitals ("Ü" to "ü") and expands a few ("İ" becomes two characters). Where the source treats two names that differ only in such a letter's case as equal, the model keeps them apart. This affects auto-responder triggers, tag names, custom command names, automod word matching, verification answers, Twitch usernames, the shop-item search in `economy`, the command name in `messageCreate`, and the permission names in the voice commands.
- Common.LowerChar: it is the ASCII mapping that `Common.ToLower` applies to each character, with the same limit.
- Common.Truncate100: it cuts at 97 UTF-16 code units, as the source does. When that cut falls inside a surrogate pair, JavaScript keeps a lone high surrogate, which a Dafny `char` cannot hold. The model ends the cut before that character, at 96 code units.
- InteractionEvents.LimitForm: the `parseInt` it models skips the same white space as `Common.Trim`. It does not model the other Unicode spaces.
- InteractionEvents.MusicButton: the shuffle button on an empty queue leaves the song list empty, where the source stores a list holding one `undefined` entry (see the next line).
- Music.Queue.Shuffle: on an empty queue the source stores a list holding one `undefined` entry. The model keeps the list empty, because a song list holding no song has no counterpart among its values.
- InteractionEvents.RoleMenuSelect: it returns the role calls in the order they are made. A role call that fails midway stops the source's loop, and the model does not show that partial effect.
- ReactionEvents.ReactionAdd and ReactionEvents.ReactionRemove: they take the guild record that `Database.Store.GetGuild` returned. They do not include the get-or-create step itself.
- Modmail.Settings.Close: when two open threads share a channel, the source drops the first in `Object.entries` order. The map in the model has no insertion order, so the model drops one of them without saying which.
- Inherited object keys: the tag, custom-command and voice-template stores are plain objects, and the source tests membership with a truthy lookup, which also finds the keys that every object inherits from `Object.prototype` ("constructor", "__proto__", "toString", "valueOf", "hasOwnProperty" and the others). The model's maps hold only the stored names, so every such name counts as absent. The lines below name each member this affects.
- Tags.Registry.Create: "constructor" and "__proto__" (tag.js:53) are refused as existing in the source; the model stores them as new tags.
- Tags.Registry.ChangeCheck: "constructor" and "__proto__" pass the existence checks at tag.js:78 and tag.js:110 in the source; the model refuses them as unknown.
- Tags.Registry.Edit: an inherited name passes tag.js:78 in the source, where the edit then writes onto the inherited object; the model refuses it and keeps the store.
- Tags.Registry.Delete: an inherited name passes tag.js:110 in the source and is reported deleted, although nothing is removed; the model refuses it as unknown.
- Tags.Registry.Info: an inherited name is found at tag.js:140 in the source, and its fields show as undefined; the model gives None.
- Tags.Registry.Use: "?constructor" takes the found branch at messageCreate.js:43 in the source and sends `undefined`; the model sends nothing and counts no use.
- MessageEvents.HandleTag: for the same messages as Tags.Registry.Use the source sends `undefined`, and the model sends nothing.
- CustomCommands.Registry.Create: "constructor" and "__proto__" are refused as existing at create.js:40 in the source; the model stores them.
- CustomCommands.Registry.Delete: "constructor" passes create.js:60 in the source and is reported deleted, although nothing is removed; the model refuses it as unknown.
- MessageEvents.CustomResponse: "!constructor" finds an inherited key at messageCreate.js:33 in the source and sends `undefined`; the model sends nothing.
- VoiceTemplates.Registry.Save: template names are not lower-cased, so "toString", "constructor", "valueOf" and the others are refused as existing at template.js:99 in the source; the model saves them.
- VoiceTemplates.Registry.Load: an inherited name passes template.js:159 in the source, which then tries to apply the inherited value as a template; the model refuses it as unknown.
- VoiceTemplates.Registry.Delete: an inherited name passes template.js:195 in the source and is reported deleted, although nothing is removed; the model refuses it as unknown.
- Reaction roles as written: setup stores bindings in a top-level map keyed by message id, while the reaction events read a per-guild list of entries. Both shapes are kept, so a binding made by setup is not found by the events, as in the source.
