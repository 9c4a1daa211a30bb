/** The in-memory document store (utils/database.js): users and guilds keyed by id,
    created with fixed defaults the first time they are asked for, plus the
    top-level reaction-role map. Persisting to disk is the ghost counter `saves`. */
module Database {
  import opened Common
  import VoiceMaster
  import Leveling
  import CustomCommands
  import Automod
  import Logging
  import Starboard
  import Suggestions
  import Tickets
  import Modmail
  import Verification
  import WelcomeImage
  import ServerStats
  import Tags
  import AutoResponders
  import Twitch
  import YouTube
  import Schedule
  import RoleMenus
  import Giveaways
  import AdvancedPolls
  import Backups
  import Reminders
  import VoiceTemplates
  import ReactionRoles

  /** The economy part of a user record. `buffs` maps a buff name to its expiry time. */
  class Economy {
    var balance: int
    var lastDaily: Option<int>
    var lastWork: Option<int>
    var buffs: map<string, int>

    ghost predicate Initial()
      reads this
    {
      balance == 0 && NoClaims()
    }

    /** No daily or work claim yet and no buff. */
    ghost predicate NoClaims()
      reads this
    {
      lastDaily == None && lastWork == None && buffs == map[]
    }

    constructor ()
      ensures Initial()
    {
      balance := 0;
      lastDaily := None;
      lastWork := None;
      buffs := map[];
    }
  }

  /** The experience part of a user record. */
  class XpData {
    var level: int
    var xp: int
    var totalXp: int
    var lastMessageTime: Option<int>

    ghost predicate Initial()
      reads this
    {
      level == 1 && xp == 0 && totalXp == 0 && lastMessageTime == None
    }

    constructor ()
      ensures Initial()
    {
      level := 1;
      xp := 0;
      totalXp := 0;
      lastMessageTime := None;
    }
  }

  /** What `/afk` stores in the user record. */
  datatype Afk = Afk(status: bool, reason: string, since: int)

  /** A user record. The economy and experience objects are created with the record
      and never replaced; the other sections appear when a command first needs them. */
  class User {
    var lastfm: Option<string>
    const economy: Economy
    const xp: XpData
    var afk: Option<Afk>
    var reminders: Reminders.Registry?
    var voiceTemplates: VoiceTemplates.Registry?

    ghost predicate Initial()
      reads this, economy, xp
    {
      lastfm == None && Defaults()
    }

    /** A new record apart from its Last.fm name. */
    ghost predicate Defaults()
      reads this, economy, xp
    {
      economy.Initial() && xp.Initial() && afk == None && reminders == null && voiceTemplates == null
    }

    constructor ()
      ensures Initial() && fresh(economy) && fresh(xp)
    {
      lastfm := None;
      economy := new Economy();
      xp := new XpData();
      afk := None;
      reminders := null;
      voiceTemplates := null;
    }

    method EnsureReminders() returns (s: Reminders.Registry)
      modifies this`reminders
      ensures s == reminders
      ensures old(reminders) != null ==> s == old(reminders)
      ensures old(reminders) == null ==> fresh(s) && s.Initial() && s.Valid()
    {
      if reminders == null {
        reminders := new Reminders.Registry();
      }
      s := reminders;
    }

    method EnsureVoiceTemplates() returns (s: VoiceTemplates.Registry)
      modifies this`voiceTemplates
      ensures s == voiceTemplates
      ensures old(voiceTemplates) != null ==> s == old(voiceTemplates)
      ensures old(voiceTemplates) == null ==> fresh(s) && s.Initial() && s.Valid()
    {
      if voiceTemplates == null {
        voiceTemplates := new VoiceTemplates.Registry();
      }
      s := voiceTemplates;
    }
  }

  /** A guild record. getGuild creates the prefix, the three channel settings, the
      Voice Master and levelling sections and the custom commands; every other
      section is created by the first command that needs it. `reactionRoles` is the
      per-guild list the reaction events read; no command writes it. */
  class Guild {
    var prefix: string
    var welcomeChannel: Option<string>
    var autoRole: Option<string>
    var modLogChannel: Option<string>
    var voiceMaster: VoiceMaster.Settings?
    var levelSystem: Leveling.Settings?
    var customCommands: CustomCommands.Registry?
    var automod: Automod.Settings?
    var logging: Logging.Settings?
    var starboard: Starboard.Settings?
    var suggestions: Suggestions.Settings?
    var tickets: Tickets.Settings?
    var modmail: Modmail.Settings?
    var verification: Verification.Settings?
    var welcomeImage: WelcomeImage.Settings?
    var serverStats: ServerStats.Settings?
    var tags: Tags.Registry?
    var autoResponders: AutoResponders.Registry?
    var twitch: Twitch.Registry?
    var youtube: YouTube.Registry?
    var scheduledMessages: Schedule.Registry?
    var roleMenus: RoleMenus.Registry?
    var giveaways: Giveaways.Registry?
    var polls: AdvancedPolls.Registry?
    var backups: Backups.Registry?
    var reactionRoles: Option<seq<ReactionRoles.GuildEntry>>

    ghost predicate Initial()
      reads this, voiceMaster, levelSystem, customCommands
    {
      prefix == "!" && Defaults()
    }

    /** A new record apart from its prefix. */
    ghost predicate Defaults()
      reads this, voiceMaster, levelSystem, customCommands
    {
      && welcomeChannel == None && autoRole == None && modLogChannel == None
      && voiceMaster != null && voiceMaster.Initial()
      && levelSystem != null && levelSystem.Initial()
      && customCommands != null && customCommands.Initial()
      && automod == null
      && logging == null
      && starboard == null
      && suggestions == null
      && tickets == null
      && modmail == null
      && verification == null
      && welcomeImage == null
      && serverStats == null
      && tags == null
      && autoResponders == null
      && twitch == null
      && youtube == null
      && scheduledMessages == null
      && roleMenus == null
      && giveaways == null
      && polls == null
      && backups == null
      && reactionRoles == None
    }

    constructor ()
      ensures Initial() && fresh(voiceMaster) && fresh(levelSystem) && fresh(customCommands)
    {
      prefix := "!";
      welcomeChannel := None;
      autoRole := None;
      modLogChannel := None;
      voiceMaster := new VoiceMaster.Settings();
      levelSystem := new Leveling.Settings();
      customCommands := new CustomCommands.Registry();
      automod := null;
      logging := null;
      starboard := null;
      suggestions := null;
      tickets := null;
      modmail := null;
      verification := null;
      welcomeImage := null;
      serverStats := null;
      tags := null;
      autoResponders := null;
      twitch := null;
      youtube := null;
      scheduledMessages := null;
      roleMenus := null;
      giveaways := null;
      polls := null;
      backups := null;
      reactionRoles := None;
    }

    method EnsureVoiceMaster() returns (s: VoiceMaster.Settings)
      modifies this`voiceMaster
      ensures s == voiceMaster
      ensures old(voiceMaster) != null ==> s == old(voiceMaster)
      ensures old(voiceMaster) == null ==> fresh(s) && s.Initial() && s.Valid()
    {
      if voiceMaster == null {
        voiceMaster := new VoiceMaster.Settings();
      }
      s := voiceMaster;
    }

    method EnsureLevelSystem() returns (s: Leveling.Settings)
      modifies this`levelSystem
      ensures s == levelSystem
      ensures old(levelSystem) != null ==> s == old(levelSystem)
      ensures old(levelSystem) == null ==> fresh(s) && s.Initial()
    {
      if levelSystem == null {
        levelSystem := new Leveling.Settings();
      }
      s := levelSystem;
    }

    method EnsureCustomCommands() returns (s: CustomCommands.Registry)
      modifies this`customCommands
      ensures s == customCommands
      ensures old(customCommands) != null ==> s == old(customCommands)
      ensures old(customCommands) == null ==> fresh(s) && s.Initial() && s.Valid()
    {
      if customCommands == null {
        customCommands := new CustomCommands.Registry();
      }
      s := customCommands;
    }

    method EnsureAutomod() returns (s: Automod.Settings)
      modifies this`automod
      ensures s == automod
      ensures old(automod) != null ==> s == old(automod)
      ensures old(automod) == null ==> fresh(s) && s.Initial() && s.Valid()
    {
      if automod == null {
        automod := new Automod.Settings();
      }
      s := automod;
    }

    method EnsureLogging() returns (s: Logging.Settings)
      modifies this`logging
      ensures s == logging
      ensures old(logging) != null ==> s == old(logging)
      ensures old(logging) == null ==> fresh(s) && s.Initial() && s.Valid()
    {
      if logging == null {
        logging := new Logging.Settings();
      }
      s := logging;
    }

    method EnsureStarboard() returns (s: Starboard.Settings)
      modifies this`starboard
      ensures s == starboard
      ensures old(starboard) != null ==> s == old(starboard)
      ensures old(starboard) == null ==> fresh(s) && s.Initial() && s.Valid()
    {
      if starboard == null {
        starboard := new Starboard.Settings();
      }
      s := starboard;
    }

    method EnsureSuggestions() returns (s: Suggestions.Settings)
      modifies this`suggestions
      ensures s == suggestions
      ensures old(suggestions) != null ==> s == old(suggestions)
      ensures old(suggestions) == null ==> fresh(s) && s.Initial()
    {
      if suggestions == null {
        suggestions := new Suggestions.Settings();
      }
      s := suggestions;
    }

    method EnsureTickets() returns (s: Tickets.Settings)
      modifies this`tickets
      ensures s == tickets
      ensures old(tickets) != null ==> s == old(tickets)
      ensures old(tickets) == null ==> fresh(s) && s.Initial() && s.Valid()
    {
      if tickets == null {
        tickets := new Tickets.Settings();
      }
      s := tickets;
    }

    method EnsureModmail() returns (s: Modmail.Settings)
      modifies this`modmail
      ensures s == modmail
      ensures old(modmail) != null ==> s == old(modmail)
      ensures old(modmail) == null ==> fresh(s) && s.Initial() && s.Valid()
    {
      if modmail == null {
        modmail := new Modmail.Settings();
      }
      s := modmail;
    }

    method EnsureVerification() returns (s: Verification.Settings)
      modifies this`verification
      ensures s == verification
      ensures old(verification) != null ==> s == old(verification)
      ensures old(verification) == null ==> fresh(s) && s.Initial() && s.Valid()
    {
      if verification == null {
        verification := new Verification.Settings();
      }
      s := verification;
    }

    method EnsureWelcomeImage() returns (s: WelcomeImage.Settings)
      modifies this`welcomeImage
      ensures s == welcomeImage
      ensures old(welcomeImage) != null ==> s == old(welcomeImage)
      ensures old(welcomeImage) == null ==> fresh(s) && s.Initial() && s.Valid()
    {
      if welcomeImage == null {
        welcomeImage := new WelcomeImage.Settings();
      }
      s := welcomeImage;
    }

    method EnsureServerStats() returns (s: ServerStats.Settings)
      modifies this`serverStats
      ensures s == serverStats
      ensures old(serverStats) != null ==> s == old(serverStats)
      ensures old(serverStats) == null ==> fresh(s) && s.Initial() && s.Valid()
    {
      if serverStats == null {
        serverStats := new ServerStats.Settings();
      }
      s := serverStats;
    }

    method EnsureTags() returns (s: Tags.Registry)
      modifies this`tags
      ensures s == tags
      ensures old(tags) != null ==> s == old(tags)
      ensures old(tags) == null ==> fresh(s) && s.Initial() && s.Valid()
    {
      if tags == null {
        tags := new Tags.Registry();
      }
      s := tags;
    }

    method EnsureAutoResponders() returns (s: AutoResponders.Registry)
      modifies this`autoResponders
      ensures s == autoResponders
      ensures old(autoResponders) != null ==> s == old(autoResponders)
      ensures old(autoResponders) == null ==> fresh(s) && s.Initial() && s.Valid()
    {
      if autoResponders == null {
        autoResponders := new AutoResponders.Registry();
      }
      s := autoResponders;
    }

    method EnsureTwitch() returns (s: Twitch.Registry)
      modifies this`twitch
      ensures s == twitch
      ensures old(twitch) != null ==> s == old(twitch)
      ensures old(twitch) == null ==> fresh(s) && s.Initial() && s.Valid()
    {
      if twitch == null {
        twitch := new Twitch.Registry();
      }
      s := twitch;
    }

    method EnsureYoutube() returns (s: YouTube.Registry)
      modifies this`youtube
      ensures s == youtube
      ensures old(youtube) != null ==> s == old(youtube)
      ensures old(youtube) == null ==> fresh(s) && s.Initial() && s.Valid()
    {
      if youtube == null {
        youtube := new YouTube.Registry();
      }
      s := youtube;
    }

    method EnsureScheduledMessages() returns (s: Schedule.Registry)
      modifies this`scheduledMessages
      ensures s == scheduledMessages
      ensures old(scheduledMessages) != null ==> s == old(scheduledMessages)
      ensures old(scheduledMessages) == null ==> fresh(s) && s.Initial()
    {
      if scheduledMessages == null {
        scheduledMessages := new Schedule.Registry();
      }
      s := scheduledMessages;
    }

    method EnsureRoleMenus() returns (s: RoleMenus.Registry)
      modifies this`roleMenus
      ensures s == roleMenus
      ensures old(roleMenus) != null ==> s == old(roleMenus)
      ensures old(roleMenus) == null ==> fresh(s) && s.Initial()
    {
      if roleMenus == null {
        roleMenus := new RoleMenus.Registry();
      }
      s := roleMenus;
    }

    method EnsureGiveaways() returns (s: Giveaways.Registry)
      modifies this`giveaways
      ensures s == giveaways
      ensures old(giveaways) != null ==> s == old(giveaways)
      ensures old(giveaways) == null ==> fresh(s) && s.Initial()
    {
      if giveaways == null {
        giveaways := new Giveaways.Registry();
      }
      s := giveaways;
    }

    method EnsurePolls() returns (s: AdvancedPolls.Registry)
      modifies this`polls
      ensures s == polls
      ensures old(polls) != null ==> s == old(polls)
      ensures old(polls) == null ==> fresh(s) && s.Initial() && s.Valid()
    {
      if polls == null {
        polls := new AdvancedPolls.Registry();
      }
      s := polls;
    }

    method EnsureBackups() returns (s: Backups.Registry)
      modifies this`backups
      ensures s == backups
      ensures old(backups) != null ==> s == old(backups)
      ensures old(backups) == null ==> fresh(s) && s.Initial()
    {
      if backups == null {
        backups := new Backups.Registry();
      }
      s := backups;
    }
  }

  class Store {
    var users: map<string, User>
    var guilds: map<string, Guild>
    /** Message id -> the role/emoji bindings that reaction-role setup stored for it. */
    var reactionRoles: map<string, seq<ReactionRoles.Binding>>
    /** How many times the store was written to disk. */
    ghost var saves: nat

    /** Different ids hold different records, so updating one user's economy or
        experience, or one guild's settings, never changes another's. */
    ghost predicate Valid()
      reads this
    {
      && (forall a, b :: a in users && b in users && a != b ==>
            users[a] != users[b] && users[a].economy != users[b].economy && users[a].xp != users[b].xp)
      && (forall a, b :: a in guilds && b in guilds && a != b ==> guilds[a] != guilds[b])
    }

    /** A new store, or one whose file could not be read: three empty collections. */
    constructor ()
      ensures users == map[] && guilds == map[] && reactionRoles == map[] && saves == 0
      ensures Valid()
    {
      users := map[];
      guilds := map[];
      reactionRoles := map[];
      saves := 0;
    }

    /** getUser: the stored record, or a new default record inserted and saved. */
    method GetUser(id: string) returns (u: User)
      modifies this`users, this`saves
      ensures users == old(users)[id := u]
      ensures id in old(users) ==> u == old(users)[id] && saves == old(saves)
      ensures id !in old(users) ==>
                fresh(u) && fresh(u.economy) && fresh(u.xp) && u.Initial() && saves == old(saves) + 1
      ensures old(Valid()) ==> Valid()
    {
      if id in users {
        u := users[id];
        return;
      }
      u := new User();
      users := users[id := u];
      saves := saves + 1;
    }

    /** getGuild: the stored record, or a new default record inserted and saved. */
    method GetGuild(id: string) returns (g: Guild)
      modifies this`guilds, this`saves
      ensures guilds == old(guilds)[id := g]
      ensures id in old(guilds) ==> g == old(guilds)[id] && saves == old(saves)
      ensures id !in old(guilds) ==>
                fresh(g) && fresh(g.voiceMaster) && fresh(g.levelSystem) && fresh(g.customCommands) &&
                g.Initial() && saves == old(saves) + 1
      ensures old(Valid()) ==> Valid()
    {
      if id in guilds {
        g := guilds[id];
        return;
      }
      g := new Guild();
      guilds := guilds[id := g];
      saves := saves + 1;
    }

    method SetLastFM(id: string, username: Option<string>)
      modifies this`users, this`saves, (if id in users then {users[id]} else {})`lastfm
      ensures id in users && users[id].lastfm == username
      ensures users == old(users)[id := users[id]]
      ensures id in old(users) ==> users[id] == old(users)[id]
      ensures id !in old(users) ==> fresh(users[id]) && users[id].Defaults()
      ensures saves == old(saves) + (if id in old(users) then 1 else 2)
      ensures old(Valid()) ==> Valid()
    {
      var u := GetUser(id);
      u.lastfm := username;
      saves := saves + 1;
    }

    /** getLastFM goes through getUser, so it too inserts a default record. */
    method GetLastFM(id: string) returns (username: Option<string>)
      modifies this`users, this`saves
      ensures id in old(users) ==> username == old(users)[id].lastfm
      ensures id !in old(users) ==> username == None
      ensures id in users && username == users[id].lastfm
      ensures old(Valid()) ==> Valid()
    {
      var u := GetUser(id);
      username := u.lastfm;
    }

    method SetPrefix(id: string, prefix: string)
      modifies this`guilds, this`saves, (if id in guilds then {guilds[id]} else {})`prefix
      ensures id in guilds && guilds[id].prefix == prefix
      ensures guilds == old(guilds)[id := guilds[id]]
      ensures id in old(guilds) ==> guilds[id] == old(guilds)[id]
      ensures id !in old(guilds) ==> fresh(guilds[id]) && guilds[id].Defaults()
      ensures saves == old(saves) + (if id in old(guilds) then 1 else 2)
      ensures old(Valid()) ==> Valid()
    {
      var g := GetGuild(id);
      g.prefix := prefix;
      saves := saves + 1;
    }

    /** getPrefix goes through getGuild, so it too inserts a default record. */
    method GetPrefix(id: string) returns (prefix: string)
      modifies this`guilds, this`saves
      ensures id in old(guilds) ==> prefix == old(guilds)[id].prefix
      ensures id !in old(guilds) ==> prefix == "!"
      ensures id in guilds && prefix == guilds[id].prefix
    {
      var g := GetGuild(id);
      prefix := g.prefix;
    }

    /** The storage step of `/reactionrole create`: the bindings are stored under
        the posted message's id in the top-level map. */
    method StoreReactionRoles(messageId: string, bindings: seq<ReactionRoles.Binding>)
      modifies this`reactionRoles, this`saves
      ensures reactionRoles == old(reactionRoles)[messageId := bindings]
      ensures saves == old(saves) + 1
    {
      reactionRoles := reactionRoles[messageId := bindings];
      saves := saves + 1;
    }
  }
}
