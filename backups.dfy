/** The backups list of a guild record, the `/backup` subcommands and the
    snapshot `createBackup` takes (commands/backup/backup.js). */
module Backups {
  import opened Common
  import opened Sorting

  /** A permission overwrite; the bit fields are kept as their decimal strings. */
  datatype Overwrite = Overwrite(id: string, kind: int, allow: string, deny: string)

  /** A channel of the guild as the snapshot reads it. */
  datatype GuildChannel = GuildChannel(
    name: string, channelType: int, position: int, parentId: Option<string>,
    topic: Option<string>, nsfw: bool, rateLimitPerUser: int,
    bitrate: int, userLimit: int, rtcRegion: Option<string>, overwrites: seq<Overwrite>)

  /** The type-specific part of a saved channel: text (type 0) and voice (type 2). */
  datatype Extra =
    | TextExtra(topic: Option<string>, nsfw: bool, rateLimitPerUser: int)
    | VoiceExtra(bitrate: int, userLimit: int, rtcRegion: Option<string>)
    | NoExtra

  datatype ChannelData = ChannelData(
    name: string, channelType: int, position: int, parentId: Option<string>,
    extra: Extra, overwrites: seq<Overwrite>)

  /** The saved form of one channel. */
  function SaveChannel(c: GuildChannel): (d: ChannelData)
    ensures d.name == c.name && d.channelType == c.channelType && d.position == c.position
    ensures d.parentId == c.parentId && d.overwrites == c.overwrites
    ensures c.channelType == 0 <==> d.extra.TextExtra?
    ensures c.channelType == 2 <==> d.extra.VoiceExtra?
    ensures d.extra.TextExtra? ==> d.extra == TextExtra(c.topic, c.nsfw, c.rateLimitPerUser)
    ensures d.extra.VoiceExtra? ==> d.extra == VoiceExtra(c.bitrate, c.userLimit, c.rtcRegion)
  {
    var extra := if c.channelType == 0 then TextExtra(c.topic, c.nsfw, c.rateLimitPerUser)
                 else if c.channelType == 2 then VoiceExtra(c.bitrate, c.userLimit, c.rtcRegion)
                 else NoExtra;
    ChannelData(c.name, c.channelType, c.position, c.parentId, extra, c.overwrites)
  }

  datatype GuildRole = GuildRole(
    id: string, name: string, colour: int, hoist: bool, position: int,
    permissions: string, mentionable: bool, managed: bool)

  datatype RoleData = RoleData(name: string, colour: int, hoist: bool, position: int, permissions: string, mentionable: bool)

  datatype Emoji = Emoji(name: string, url: string, animated: bool)

  datatype GuildSnapshot = GuildSnapshot(
    id: string, name: string, iconUrl: Option<string>, botId: string,
    channels: seq<GuildChannel>, roles: seq<GuildRole>, emojis: seq<Emoji>)

  datatype Backup = Backup(
    id: string, name: string, iconUrl: Option<string>, createdAt: int, createdBy: string,
    channels: seq<ChannelData>, roles: seq<RoleData>, emojis: seq<Emoji>)

  function Position(r: GuildRole): int { r.position }

  predicate Saved(guildId: string, r: GuildRole) { !r.managed && r.id != guildId }

  /** The roles a backup keeps: no managed role and not @everyone, highest first. */
  function KeptRoles(roles: seq<GuildRole>, guildId: string): seq<GuildRole>
  {
    SortDesc(Filter(roles, r => Saved(guildId, r)), Position)
  }

  lemma KeptRolesCorrect(roles: seq<GuildRole>, guildId: string)
    ensures SortedDesc(KeptRoles(roles, guildId), Position)
    ensures forall r :: r in KeptRoles(roles, guildId) <==> r in roles && !r.managed && r.id != guildId
  {
    var f := Filter(roles, r => Saved(guildId, r));
    SortDescCorrect(f, Position);
    forall r ensures r in KeptRoles(roles, guildId) <==> r in f {
      assert r in f <==> r in multiset(f);
      assert r in KeptRoles(roles, guildId) <==> r in multiset(KeptRoles(roles, guildId));
    }
  }

  function SaveRole(r: GuildRole): RoleData
  {
    RoleData(r.name, r.colour, r.hoist, r.position, r.permissions, r.mentionable)
  }

  /** createBackup: the channels in cache order, the kept roles, and the emojis. */
  method CreateBackup(g: GuildSnapshot, id: string, now: int) returns (b: Backup)
    ensures b.id == id && b.name == g.name && b.iconUrl == g.iconUrl
    ensures b.createdAt == now && b.createdBy == g.botId
    ensures |b.channels| == |g.channels| && forall k :: 0 <= k < |g.channels| ==> b.channels[k] == SaveChannel(g.channels[k])
    ensures var kept := KeptRoles(g.roles, g.id);
              |b.roles| == |kept| && forall k :: 0 <= k < |kept| ==> b.roles[k] == SaveRole(kept[k])
    ensures b.emojis == g.emojis
  {
    var channels: seq<ChannelData> := [];
    for i := 0 to |g.channels|
      invariant |channels| == i
      invariant forall k :: 0 <= k < i ==> channels[k] == SaveChannel(g.channels[k])
    {
      channels := channels + [SaveChannel(g.channels[i])];
    }
    var kept := KeptRoles(g.roles, g.id);
    var roles: seq<RoleData> := [];
    for i := 0 to |kept|
      invariant |roles| == i
      invariant forall k :: 0 <= k < i ==> roles[k] == SaveRole(kept[k])
    {
      roles := roles + [SaveRole(kept[i])];
    }
    var emojis: seq<Emoji> := [];
    for i := 0 to |g.emojis|
      invariant emojis == g.emojis[..i]
    {
      emojis := emojis + [g.emojis[i]];
    }
    assert g.emojis[..|g.emojis|] == g.emojis;
    return Backup(id, g.name, g.iconUrl, now, g.botId, channels, roles, emojis);
  }

  predicate HasId(id: string, b: Backup) { b.id == id }

  datatype Reply = Done | NoBackups | UnknownBackup | Failed

  class Registry {
    var backups: seq<Backup>

    /** The state a freshly created section is in. */
    ghost predicate Initial()
      reads this
    {
      backups == []
    }

    constructor ()
      ensures Initial()
    {
      backups := [];
    }

    /** `/backup create`: the snapshot is appended, or nothing changes when taking
        it failed (`snapshot` is None). */
    method Create(snapshot: Option<Backup>) returns (r: Reply)
      modifies this
      ensures r == (if snapshot.Some? then Done else Failed)
      ensures backups == if snapshot.Some? then old(backups) + [snapshot.value] else old(backups)
    {
      if snapshot.None? {
        return Failed;
      }
      backups := backups + [snapshot.value];
      return Done;
    }

    function ListCheck(): (r: Reply)
      reads this
      ensures r == Done <==> |backups| > 0
      ensures r != Done ==> r == NoBackups
    {
      if |backups| == 0 then NoBackups else Done
    }

    /** `backups.find` as used by load and info: the first backup with the id. */
    function Lookup(id: string): (b: Option<Backup>)
      reads this
      ensures b.None? <==> forall k :: 0 <= k < |backups| ==> backups[k].id != id
      ensures b.Some? ==> exists k :: 0 <= k < |backups| && backups[k] == b.value && b.value.id == id &&
                                      forall j :: 0 <= j < k ==> backups[j].id != id
    {
      var i := FindIndex(backups, b => HasId(id, b));
      if i == -1 then None else Some(backups[i])
    }

    /** `/backup delete`: the first backup with the id is dropped. */
    method Delete(id: string) returns (r: Reply)
      modifies this
      ensures var i := FindIndex(old(backups), b => HasId(id, b));
        && r == (if i == -1 then UnknownBackup else Done)
        && backups == if i == -1 then old(backups) else RemoveAt(old(backups), i)
      ensures r == Done ==> |backups| == |old(backups)| - 1
    {
      var i := FindIndex(backups, b => HasId(id, b));
      if i == -1 {
        return UnknownBackup;
      }
      backups := RemoveAt(backups, i);
      return Done;
    }
  }
}
