/** The starboard section of a guild record, the `/starboard` subcommands
    (commands/starboard/starboard.js) and the board rules of the reaction events
    (events/messageReactionAdd.js, events/messageReactionRemove.js). */
module Starboard {
  import opened Common

  const DefaultEmoji: string := "⭐"
  /** The bounds of the threshold and count options. */
  const MinThreshold := 1
  const MaxThreshold := 25

  /** What the board remembers about a posted message. */
  datatype Star = Star(starboardMessageId: string, count: int)

  datatype Reply = Done | NotEnabled | AlreadyIgnored | NotIgnored

  /** What a reaction event did to the board. */
  datatype Effect =
    | Skipped        // disabled, another emoji, an ignored channel, a bot's message or the board itself
    | BelowThreshold // added, but not enough reactions yet
    | Posted         // a new post on the board
    | Updated        // the count of an existing post changed
    | Unchanged      // the count was already right, or the post could not be reached
    | Removed        // the post was dropped below the threshold

  /** `emoji || "⭐"`. */
  function EmojiOrDefault(emoji: Option<string>): (e: string)
    ensures emoji.Some? && emoji.value != "" ==> e == emoji.value
    ensures emoji.None? || emoji.value == "" ==> e == DefaultEmoji
    ensures e != ""
  {
    if emoji.Some? && emoji.value != "" then emoji.value else DefaultEmoji
  }

  class Settings {
    var enabled: bool
    var channelId: Option<string>
    var threshold: int
    var emoji: string
    var ignoredChannels: seq<string>
    /** Id of a starred message -> its post on the board. */
    var starredMessages: map<string, Star>

    /** The threshold is one the options allow and no channel is ignored twice. */
    ghost predicate Valid()
      reads this
    {
      MinThreshold <= threshold <= MaxThreshold && NoDups(ignoredChannels)
    }

    /** The state a freshly created section is in. */
    ghost predicate Initial()
      reads this
    {
      && !enabled && channelId == None && threshold == 3 && emoji == DefaultEmoji
      && ignoredChannels == [] && starredMessages == map[]
    }

    constructor ()
      ensures Initial() && Valid()
    {
      enabled := false;
      channelId := None;
      threshold := 3;
      emoji := DefaultEmoji;
      ignoredChannels := [];
      starredMessages := map[];
    }

    method Setup(channel: string, count: int, emojiOption: Option<string>)
      requires MinThreshold <= count <= MaxThreshold
      modifies this`enabled, this`channelId, this`threshold, this`emoji
      ensures enabled && channelId == Some(channel) && threshold == count
      ensures emoji == EmojiOrDefault(emojiOption)
      ensures old(Valid()) ==> Valid()
    {
      enabled := true;
      channelId := Some(channel);
      threshold := count;
      emoji := EmojiOrDefault(emojiOption);
    }

    method Disable()
      modifies this`enabled
      ensures !enabled
    {
      enabled := false;
    }

    method SetThreshold(count: int) returns (r: Reply)
      requires MinThreshold <= count <= MaxThreshold
      modifies this`threshold
      ensures r == (if old(enabled) then Done else NotEnabled)
      ensures threshold == if r == Done then count else old(threshold)
      ensures old(Valid()) ==> Valid()
    {
      if !enabled {
        return NotEnabled;
      }
      threshold := count;
      return Done;
    }

    method SetEmoji(e: string) returns (r: Reply)
      modifies this`emoji
      ensures r == (if old(enabled) then Done else NotEnabled)
      ensures emoji == if r == Done then e else old(emoji)
    {
      if !enabled {
        return NotEnabled;
      }
      emoji := e;
      return Done;
    }

    method Ignore(channel: string) returns (r: Reply)
      modifies this`ignoredChannels
      ensures r == (if !old(enabled) then NotEnabled
                    else if channel in old(ignoredChannels) then AlreadyIgnored
                    else Done)
      ensures ignoredChannels == if r == Done then old(ignoredChannels) + [channel] else old(ignoredChannels)
      ensures old(Valid()) ==> Valid()
    {
      if !enabled {
        return NotEnabled;
      }
      if channel in ignoredChannels {
        return AlreadyIgnored;
      }
      ignoredChannels := ignoredChannels + [channel];
      return Done;
    }

    method Unignore(channel: string) returns (r: Reply)
      modifies this`ignoredChannels
      ensures r == (if !old(enabled) then NotEnabled
                    else if channel in old(ignoredChannels) then Done
                    else NotIgnored)
      ensures ignoredChannels == if r == Done then RemoveFirst(old(ignoredChannels), channel) else old(ignoredChannels)
      ensures r == Done && old(Valid()) ==> channel !in ignoredChannels
      ensures old(Valid()) ==> Valid()
    {
      if !enabled {
        return NotEnabled;
      }
      if channel !in ignoredChannels {
        return NotIgnored;
      }
      if NoDups(ignoredChannels) { RemoveFirstNoDups(ignoredChannels, channel); }
      RemoveFirstMultiset(ignoredChannels, channel);
      ignoredChannels := RemoveFirst(ignoredChannels, channel);
      return Done;
    }

    /** The configured emoji matches by name or by the emoji's text form. */
    predicate EmojiMatches(emojiName: string, emojiText: string)
      reads this
    {
      emojiName == emoji || emojiText == emoji
    }

    /** A reaction added to message `messageId` in `channel` with `count` reactions
        of its emoji. `boardFound` is whether the board channel could be fetched,
        `posted` the id of the new board post (None when sending failed), and
        `postFound` whether an existing post could be fetched. */
    method ReactionAdded(messageId: string, channel: string, emojiName: string, emojiText: string,
                         authorBot: bool, count: int, boardFound: bool, posted: Option<string>,
                         postFound: bool) returns (e: Effect)
      modifies this`starredMessages
      ensures e == Skipped <==>
                !enabled || !EmojiMatches(emojiName, emojiText) || channel in ignoredChannels ||
                authorBot || channelId == Some(channel)
      ensures e != Skipped && count < threshold ==> e == BelowThreshold
      ensures e in {Skipped, BelowThreshold} ==> starredMessages == old(starredMessages)
      ensures e == Posted <==> e != Skipped && count >= threshold && messageId !in old(starredMessages) &&
                               boardFound && posted.Some?
      ensures e == Posted ==> starredMessages == old(starredMessages)[messageId := Star(posted.value, count)]
      ensures e == Updated <==> e != Skipped && count >= threshold && messageId in old(starredMessages) &&
                                old(starredMessages)[messageId].count != count && boardFound && postFound
      ensures e == Updated ==> starredMessages == old(starredMessages)[messageId := old(starredMessages)[messageId].(count := count)]
      ensures e == Unchanged ==> starredMessages == old(starredMessages)
      ensures e != Removed
    {
      if !enabled || !EmojiMatches(emojiName, emojiText) || channel in ignoredChannels ||
         authorBot || channelId == Some(channel) {
        return Skipped;
      }
      if count < threshold {
        return BelowThreshold;
      }
      if messageId !in starredMessages {
        if !boardFound || posted.None? {
          return Unchanged;
        }
        starredMessages := starredMessages[messageId := Star(posted.value, count)];
        return Posted;
      }
      var star := starredMessages[messageId];
      if star.count != count && boardFound && postFound {
        starredMessages := starredMessages[messageId := star.(count := count)];
        return Updated;
      }
      return Unchanged;
    }

    /** A reaction removed; `count` is None when the event carries no count. Only a
        message already on the board is affected. `boardFound` and `postFound` as for
        ReactionAdded; deleting the post itself is best effort. */
    method ReactionRemoved(messageId: string, channel: string, emojiName: string, emojiText: string,
                           count: Option<int>, boardFound: bool, postFound: bool) returns (e: Effect)
      modifies this`starredMessages
      ensures var n := if count.Some? then count.value else 0;
        && (e == Skipped <==> !enabled || !EmojiMatches(emojiName, emojiText) || channel in ignoredChannels ||
                              messageId !in old(starredMessages))
        && (e == Removed <==> e != Skipped && n < threshold && boardFound)
        && (e == Removed ==> starredMessages == old(starredMessages) - {messageId})
        && (e == Updated <==> e != Skipped && n >= threshold && old(starredMessages)[messageId].count != n &&
                              boardFound && postFound)
        && (e == Updated ==> starredMessages == old(starredMessages)[messageId := old(starredMessages)[messageId].(count := n)])
      ensures e in {Skipped, Unchanged} ==> starredMessages == old(starredMessages)
      ensures e !in {BelowThreshold, Posted}
    {
      if !enabled || !EmojiMatches(emojiName, emojiText) || channel in ignoredChannels ||
         messageId !in starredMessages {
        return Skipped;
      }
      var n := if count.Some? then count.value else 0;
      if n < threshold {
        if !boardFound {
          return Unchanged;
        }
        starredMessages := starredMessages - {messageId};
        return Removed;
      }
      var star := starredMessages[messageId];
      if star.count != n && boardFound && postFound {
        starredMessages := starredMessages[messageId := star.(count := n)];
        return Updated;
      }
      return Unchanged;
    }
  }
}
