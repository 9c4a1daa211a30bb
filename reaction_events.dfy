/** The reaction handlers (events/messageReactionAdd.js and
    events/messageReactionRemove.js): a reaction by a person first asks the
    platform for the reaction role bound to the message and emoji, then applies the
    starboard rules. The guild record is the one getGuild returns (Database.Store.GetGuild);
    fetching partial reactions and messages, the member and the board channel are
    platform calls whose outcomes are parameters. */
module ReactionEvents {
  import opened Common
  import Database
  import Starboard
  import ReactionRoles

  /** The role the handler asks the platform to add (or remove): the guild entry
      for the message and the emoji's id, or its name when it has none; nothing when
      the member could not be fetched. */
  function RoleRequest(entries: Option<seq<ReactionRoles.GuildEntry>>, messageId: string,
                       emojiId: Option<string>, emojiName: string, memberFound: bool): (r: Option<string>)
    ensures r.Some? <==> memberFound && entries.Some? &&
                         exists k :: 0 <= k < |entries.value| &&
                           ReactionRoles.Matches(messageId, ReactionRoles.EmojiKey(emojiId, emojiName), entries.value[k])
  {
    var key := ReactionRoles.EmojiKey(emojiId, emojiName);
    var role := ReactionRoles.LookupRole(entries, messageId, key);
    if memberFound then role else None
  }

  /** A reaction by a bot, or one whose partial reaction or message could not be
      fetched, is ignored before the guild record is looked at. */
  predicate Ignored(userBot: bool, fetchFailed: bool) { userBot || fetchFailed }

  /** A reaction added. `role` is the role requested for the reacting member and
      `star` what the starboard rules did (None when the guild has no starboard
      section). */
  method ReactionAdd(g: Database.Guild, userBot: bool, fetchFailed: bool,
                     messageId: string, channel: string, emojiId: Option<string>, emojiName: string,
                     emojiText: string, authorBot: bool, count: int, memberFound: bool,
                     boardFound: bool, posted: Option<string>, postFound: bool)
    returns (role: Option<string>, star: Option<Starboard.Effect>)
    modifies g.starboard
    ensures Ignored(userBot, fetchFailed) ==> role == None && star == None
    ensures !Ignored(userBot, fetchFailed) ==>
              role == RoleRequest(g.reactionRoles, messageId, emojiId, emojiName, memberFound)
    ensures star.Some? <==> !Ignored(userBot, fetchFailed) && g.starboard != null
    ensures g.starboard != null ==>
              var sb := g.starboard;
              && sb.enabled == old(sb.enabled) && sb.threshold == old(sb.threshold)
              && sb.emoji == old(sb.emoji) && sb.channelId == old(sb.channelId)
              && sb.ignoredChannels == old(sb.ignoredChannels)
              && (star.None? || star.value in {Starboard.Skipped, Starboard.BelowThreshold, Starboard.Unchanged} ==>
                    sb.starredMessages == old(sb.starredMessages))
              && (star == Some(Starboard.Skipped) <==>
                    star.Some? &&
                    (!sb.enabled || !sb.EmojiMatches(emojiName, emojiText) || channel in sb.ignoredChannels ||
                     authorBot || sb.channelId == Some(channel)))
              && (star == Some(Starboard.Posted) <==>
                    star.Some? && star.value != Starboard.Skipped && count >= sb.threshold &&
                    messageId !in old(sb.starredMessages) && boardFound && posted.Some?)
              && (star == Some(Starboard.Posted) ==>
                    sb.starredMessages == old(sb.starredMessages)[messageId := Starboard.Star(posted.value, count)])
              && (star == Some(Starboard.Updated) ==>
                    messageId in old(sb.starredMessages) &&
                    sb.starredMessages == old(sb.starredMessages)[messageId :=
                                            old(sb.starredMessages)[messageId].(count := count)])
    ensures star != Some(Starboard.Removed)
  {
    if Ignored(userBot, fetchFailed) {
      return None, None;
    }
    role := RoleRequest(g.reactionRoles, messageId, emojiId, emojiName, memberFound);
    if g.starboard == null {
      return role, None;
    }
    var e := g.starboard.ReactionAdded(messageId, channel, emojiName, emojiText, authorBot, count,
                                       boardFound, posted, postFound);
    star := Some(e);
  }

  /** A reaction removed; `count` is None when the event carries no count, which
      counts as 0. */
  method ReactionRemove(g: Database.Guild, userBot: bool, fetchFailed: bool,
                        messageId: string, channel: string, emojiId: Option<string>, emojiName: string,
                        emojiText: string, count: Option<int>, memberFound: bool,
                        boardFound: bool, postFound: bool)
    returns (role: Option<string>, star: Option<Starboard.Effect>)
    modifies g.starboard
    ensures Ignored(userBot, fetchFailed) ==> role == None && star == None
    ensures !Ignored(userBot, fetchFailed) ==>
              role == RoleRequest(g.reactionRoles, messageId, emojiId, emojiName, memberFound)
    ensures star.Some? <==> !Ignored(userBot, fetchFailed) && g.starboard != null
    ensures g.starboard != null ==>
              var sb := g.starboard;
              var n := if count.Some? then count.value else 0;
              && sb.enabled == old(sb.enabled) && sb.threshold == old(sb.threshold)
              && sb.emoji == old(sb.emoji) && sb.channelId == old(sb.channelId)
              && sb.ignoredChannels == old(sb.ignoredChannels)
              && (star.None? || star.value in {Starboard.Skipped, Starboard.Unchanged} ==>
                    sb.starredMessages == old(sb.starredMessages))
              && (star == Some(Starboard.Skipped) <==>
                    star.Some? &&
                    (!sb.enabled || !sb.EmojiMatches(emojiName, emojiText) || channel in sb.ignoredChannels ||
                     messageId !in old(sb.starredMessages)))
              && (star == Some(Starboard.Removed) <==>
                    star.Some? && star.value != Starboard.Skipped && n < sb.threshold && boardFound)
              && (star == Some(Starboard.Removed) ==>
                    sb.starredMessages == old(sb.starredMessages) - {messageId})
              && (star == Some(Starboard.Updated) ==>
                    messageId in old(sb.starredMessages) &&
                    sb.starredMessages == old(sb.starredMessages)[messageId :=
                                            old(sb.starredMessages)[messageId].(count := n)])
    ensures star != Some(Starboard.Posted) && star != Some(Starboard.BelowThreshold)
  {
    if Ignored(userBot, fetchFailed) {
      return None, None;
    }
    role := RoleRequest(g.reactionRoles, messageId, emojiId, emojiName, memberFound);
    if g.starboard == null {
      return role, None;
    }
    var e := g.starboard.ReactionRemoved(messageId, channel, emojiName, emojiText, count, boardFound, postFound);
    star := Some(e);
  }

  /** The first entry bound to the message and the emoji decides the role, and
      the add and remove handlers ask for the same one, so removing a reaction
      takes back the role that adding it granted. */
  lemma FirstBindingDecides(entries: seq<ReactionRoles.GuildEntry>, messageId: string,
                            emojiId: Option<string>, emojiName: string, k: nat)
    requires k < |entries|
    requires ReactionRoles.Matches(messageId, ReactionRoles.EmojiKey(emojiId, emojiName), entries[k])
    requires forall j :: 0 <= j < k ==>
               !ReactionRoles.Matches(messageId, ReactionRoles.EmojiKey(emojiId, emojiName), entries[j])
    ensures RoleRequest(Some(entries), messageId, emojiId, emojiName, true) == Some(entries[k].roleId)
  {
    var key := ReactionRoles.EmojiKey(emojiId, emojiName);
    var r := ReactionRoles.LookupRole(Some(entries), messageId, key);
    assert r.Some?;
    var i :| 0 <= i < |entries| && entries[i].roleId == r.value && ReactionRoles.Matches(messageId, key, entries[i]) &&
             forall j :: 0 <= j < i ==> !ReactionRoles.Matches(messageId, key, entries[j]);
    assert i == k;
  }
}
