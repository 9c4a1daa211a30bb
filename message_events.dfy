/** The guild-message handler (events/messageCreate.js): experience and level-ups,
    `!name` custom commands, `?key` tags and the auto-responders. The AFK part of
    the handler is in the Afk module and the modmail gate in Modmail. */
module MessageEvents {
  import opened Common
  import Database
  import Leveling
  import Tags
  import AutoResponders

  // ---------------------------------------------------------------------
  // Experience
  // ---------------------------------------------------------------------

  const XpCooldown: int := 60000
  const MinXp: int := 15
  const MaxXp: int := 25
  const XpPerLevel: int := 100

  /** The total experience at which `level` is reached: 100 + 200 + ... +
      100 * (level - 1). */
  function XpToReach(level: int): int
  {
    50 * level * (level - 1)
  }

  /** A record built only by experience awards: at least level 1, the current
      experience below what the next level needs, and the total equal to what
      was needed so far plus the current experience. */
  ghost predicate Progress(x: Database.XpData)
    reads x
  {
    x.level >= 1 && 0 <= x.xp < x.level * XpPerLevel && x.totalXp == XpToReach(x.level) + x.xp
  }

  /** A fresh experience record is progress-consistent. */
  lemma InitialProgress(x: Database.XpData)
    requires x.Initial()
    ensures Progress(x)
  {
  }

  lemma LevelUpArithmetic(level: int, xp: int, earned: int)
    requires level >= 1
    ensures XpToReach(level + 1) + (xp + earned - level * XpPerLevel) == XpToReach(level) + xp + earned
  {
    assert XpToReach(level + 1) == XpToReach(level) + level * XpPerLevel;
  }

  /** handleLeveling's update of the author's record: nothing within a minute
      of the last award; otherwise the earned amount goes to both counters and at
      most one level is gained. */
  method AwardXp(x: Database.XpData, now: int, earned: int) returns (leveledUp: bool)
    requires MinXp <= earned <= MaxXp
    modifies x
    ensures OnCooldown(old(x.lastMessageTime), now, XpCooldown) ==> unchanged(x) && !leveledUp
    ensures !OnCooldown(old(x.lastMessageTime), now, XpCooldown) ==>
              && x.totalXp == old(x.totalXp) + earned
              && x.lastMessageTime == Some(now)
              && leveledUp == (old(x.xp) + earned >= old(x.level) * XpPerLevel)
              && x.level == old(x.level) + (if leveledUp then 1 else 0)
              && x.xp == old(x.xp) + earned - (if leveledUp then old(x.level) * XpPerLevel else 0)
    ensures old(Progress(x)) ==> Progress(x)
  {
    if OnCooldown(x.lastMessageTime, now, XpCooldown) {
      return false;
    }
    ghost var level0, xp0 := x.level, x.xp;
    x.xp := x.xp + earned;
    x.totalXp := x.totalXp + earned;
    x.lastMessageTime := Some(now);
    var needed := x.level * XpPerLevel;
    leveledUp := x.xp >= needed;
    if leveledUp {
      x.xp := x.xp - needed;
      x.level := x.level + 1;
      if level0 >= 1 {
        LevelUpArithmetic(level0, xp0, earned);
        assert x.level * XpPerLevel == needed + XpPerLevel;
      }
    }
  }

  /** The role a level awards: `roles[level]` when it is a non-empty id. */
  function LevelReward(ls: Leveling.Settings, level: int): (r: Option<string>)
    reads ls
    ensures r.Some? <==> level in ls.roles && ls.roles[level] != ""
    ensures r.Some? ==> r.value == ls.roles[level]
  {
    if ls.HasReward(level) then Some(ls.roles[level]) else None
  }

  /** The leveling step of a guild message: only when the guild's level system is
      on; a level-up reports the reward role of the new level. */
  method HandleLeveling(ls: Leveling.Settings?, x: Database.XpData, now: int, earned: int)
    returns (leveledUp: bool, reward: Option<string>)
    requires MinXp <= earned <= MaxXp
    modifies x
    ensures ls == null || !ls.enabled ==> unchanged(x) && !leveledUp && reward == None
    ensures ls != null && ls.enabled && OnCooldown(old(x.lastMessageTime), now, XpCooldown) ==>
              unchanged(x) && !leveledUp && reward == None
    ensures ls != null && ls.enabled && !OnCooldown(old(x.lastMessageTime), now, XpCooldown) ==>
              && x.totalXp == old(x.totalXp) + earned
              && x.lastMessageTime == Some(now)
              && leveledUp == (old(x.xp) + earned >= old(x.level) * XpPerLevel)
              && x.level == old(x.level) + (if leveledUp then 1 else 0)
              && x.xp == old(x.xp) + earned - (if leveledUp then old(x.level) * XpPerLevel else 0)
    ensures leveledUp ==> x.level == old(x.level) + 1 && reward == LevelReward(ls, x.level)
    ensures !leveledUp ==> reward == None
    ensures old(Progress(x)) ==> Progress(x)
  {
    if ls == null || !ls.enabled {
      return false, None;
    }
    leveledUp := AwardXp(x, now, earned);
    reward := if leveledUp then LevelReward(ls, x.level) else None;
  }

  // ---------------------------------------------------------------------
  // Custom commands and tags
  // ---------------------------------------------------------------------

  /** The name of a `!` message: the first space-separated word of the trimmed
      rest, in lower case. */
  function CommandName(content: string): (r: Option<string>)
    ensures r.Some? <==> StartsWith(content, "!")
    ensures r.Some? ==> IsLowerCase(r.value) && ' ' !in r.value
  {
    if StartsWith(content, "!") then
      var first := FirstPiece(Trim(content[1..]), ' ');
      assert ' ' !in ToLower(first) by {
        forall i | 0 <= i < |first| ensures ToLower(first)[i] != ' ' {
          assert first[i] in first;
        }
      }
      Some(ToLower(first))
    else None
  }

  predicate NoSpaces(s: string) { forall i :: 0 <= i < |s| ==> !IsSpace(s[i]) }

  lemma FirstPieceAtSpace(n: string, rest: string)
    requires ' ' !in n
    ensures FirstPiece(n + [' '] + rest, ' ') == n
  {
    var s := n + [' '] + rest;
    assert s[|n|] == ' ';
    assert s[..|n|] == n;
  }

  /** `!name args` invokes the command called `name`, in lower case: when the
      name has no white space, and the arguments (if any) do not end in white
      space, the rest of the message never reaches the name. */
  lemma CommandOfMessage(name: string, args: string)
    requires name != "" && NoSpaces(name)
    requires args != "" ==> !IsSpace(args[|args| - 1])
    ensures CommandName("!" + name + (if args == "" then "" else " " + args)) == Some(ToLower(name))
  {
    var body := name + (if args == "" then "" else " " + args);
    assert "!" + name + (if args == "" then "" else " " + args) == "!" + body;
    MessageBodyClean(name, args, body);
    CommandNameOfBody(body, name);
  }

  /** A `!` message names the first word of its trimmed rest. */
  lemma CommandNameOfBody(body: string, w: string)
    requires FirstPiece(Trim(body), ' ') == w
    ensures CommandName("!" + body) == Some(ToLower(w))
  {
    assert ("!" + body)[..1] == "!";
    assert ("!" + body)[1..] == body;
  }

  /** The rest of such a message is already trimmed and starts with the name. */
  lemma MessageBodyClean(name: string, args: string, body: string)
    requires name != "" && NoSpaces(name)
    requires args != "" ==> !IsSpace(args[|args| - 1])
    requires body == name + (if args == "" then "" else " " + args)
    ensures FirstPiece(Trim(body), ' ') == name
  {
    assert body[0] == name[0];
    assert !IsSpace(body[|body| - 1]);
    TrimKeepsClean(body);
    assert ' ' !in name by {
      forall i | 0 <= i < |name| ensures name[i] != ' ' { }
    }
    if args == "" {
      assert body == name;
    } else {
      assert body == name + [' '] + args;
      FirstPieceAtSpace(name, args);
    }
  }

  /** The custom command a message runs, if the guild has one by that name. */
  function CustomResponse(g: Database.Guild, content: string): (r: Option<string>)
    reads g, g.customCommands
    ensures r.Some? <==> CommandName(content).Some? && g.customCommands != null &&
                         CommandName(content).value in g.customCommands.commands
    ensures r.Some? ==> r.value == g.customCommands.commands[CommandName(content).value].response
  {
    var name := CommandName(content);
    if name.Some? && g.customCommands != null && name.value in g.customCommands.commands then
      Some(g.customCommands.commands[name.value].response)
    else None
  }

  /** The key of a `?` message: the trimmed rest, in lower case. */
  function TagKey(content: string): (r: Option<string>)
    ensures r.Some? <==> StartsWith(content, "?")
    ensures r.Some? ==> IsLowerCase(r.value) && r.value == ToLower(Trim(content[1..]))
  {
    if StartsWith(content, "?") then Some(ToLower(Trim(content[1..]))) else None
  }

  /** `?key` ignores the case of the key. */
  lemma TagKeyIgnoresCase(key: string)
    ensures TagKey("?" + key) == Some(ToLower(Trim(key)))
  {
    assert ("?" + key)[1..] == key;
  }

  /** The tag step of a guild message, on the guild's tags section: a key naming
      a tag counts one use. */
  method HandleTag(tags: Tags.Registry?, content: string) returns (sent: Option<string>)
    modifies tags
    ensures TagKey(content).None? || tags == null ==> sent == None
    ensures TagKey(content).None? && tags != null ==> unchanged(tags)
    ensures TagKey(content).Some? && tags != null ==>
              var key := TagKey(content).value;
              var before := old(tags.tags);
              && (key in before ==>
                    tags.tags == Tags.Used(before, key) &&
                    sent == Some(before[key].content))
              && (key !in before ==> tags.tags == before && sent == None)
  {
    var key := TagKey(content);
    if key.None? || tags == null {
      return None;
    }
    sent := tags.Use(key.value);
  }

  /** The auto-responder step: only when the section exists and is enabled. */
  method HandleAutoResponders(g: Database.Guild, content: string) returns (sent: Option<string>)
    modifies g.autoResponders
    ensures g.autoResponders == null || !old(g.autoResponders.enabled) ==>
              sent == None && (g.autoResponders != null ==> g.autoResponders.responses == old(g.autoResponders.responses))
    ensures g.autoResponders != null && old(g.autoResponders.enabled) ==>
              var rs := old(g.autoResponders.responses);
              var i := FindIndex(rs, x => AutoResponders.Fires(x, content));
              && (i == -1 ==> sent == None && g.autoResponders.responses == rs)
              && (i != -1 ==> sent == Some(rs[i].response) &&
                              g.autoResponders.responses == rs[i := rs[i].(uses := rs[i].uses + 1)])
    ensures g.autoResponders != null ==> g.autoResponders.enabled == old(g.autoResponders.enabled)
  {
    if g.autoResponders == null || !g.autoResponders.enabled {
      return None;
    }
    sent := g.autoResponders.Respond(content);
  }
}
