/** The serverStats section of a guild record, the `/serverstats` subcommands and
    the statistic counts shown in the channel names (commands/stats/serverstats.js). */
module ServerStats {
  import opened Common

  datatype StatType = Members | Humans | Bots | Channels | Roles | Boosts | Online

  /** The order in which setup creates the channels. */
  const StatOrder: seq<StatType> := [Members, Humans, Bots, Channels, Roles, Boosts, Online]

  /** The value of the type option, which is also the key of `formats` and `channels`. */
  function StatName(t: StatType): (name: string)
    ensures name in StatNames
  {
    match t
    case Members => "members"
    case Humans => "humans"
    case Bots => "bots"
    case Channels => "channels"
    case Roles => "roles"
    case Boosts => "boosts"
    case Online => "online"
  }

  const StatNames: set<string> := {"members", "humans", "bots", "channels", "roles", "boosts", "online"}

  lemma StatOrderComplete(t: StatType)
    ensures t in StatOrder
  {
    match t
    case Members => assert StatOrder[0] == t;
    case Humans => assert StatOrder[1] == t;
    case Bots => assert StatOrder[2] == t;
    case Channels => assert StatOrder[3] == t;
    case Roles => assert StatOrder[4] == t;
    case Boosts => assert StatOrder[5] == t;
    case Online => assert StatOrder[6] == t;
  }

  const Placeholder: string := "{count}"

  function DefaultFormat(t: StatType): (f: string)
    ensures Contains(f, Placeholder)
  {
    var f := match t
      case Members => "👥 Members: {count}"
      case Humans => "👤 Humans: {count}"
      case Bots => "🤖 Bots: {count}"
      case Channels => "📊 Channels: {count}"
      case Roles => "🏷️ Roles: {count}"
      case Boosts => "🚀 Boosts: {count}"
      case Online => "🟢 Online: {count}";
    assert OccursAt(f, Placeholder, |f| - 7);
    f
  }

  /** What the counts are read from. */
  datatype Member = Member(bot: bool, online: bool)
  datatype GuildSnapshot = GuildSnapshot(
    memberCount: nat, members: seq<Member>, channelCount: nat, roleCount: nat, boostCount: Option<nat>)

  predicate IsBot(m: Member) { m.bot }
  predicate IsHuman(m: Member) { !m.bot }
  predicate IsOnline(m: Member) { m.online }

  /** getStatCount: dispatch on the type name; an unknown name counts 0 and a
      missing boost count is 0. */
  function GetStatCount(g: GuildSnapshot, name: string): (n: nat)
    ensures name == "members" ==> n == g.memberCount
    ensures name == "humans" ==> n == |Filter(g.members, IsHuman)|
    ensures name == "bots" ==> n == |Filter(g.members, IsBot)|
    ensures name == "channels" ==> n == g.channelCount
    ensures name == "roles" ==> n == g.roleCount
    ensures name == "boosts" ==> n == (if g.boostCount.Some? then g.boostCount.value else 0)
    ensures name == "online" ==> n == |Filter(g.members, IsOnline)|
    ensures name !in StatNames ==> n == 0
  {
    if name == "members" then g.memberCount
    else if name == "humans" then |Filter(g.members, IsHuman)|
    else if name == "bots" then |Filter(g.members, IsBot)|
    else if name == "channels" then g.channelCount
    else if name == "roles" then g.roleCount
    else if name == "boosts" then (if g.boostCount.Some? then g.boostCount.value else 0)
    else if name == "online" then |Filter(g.members, IsOnline)|
    else 0
  }

  /** Every fetched member is counted once, as a human or as a bot. */
  lemma HumansPlusBots(g: GuildSnapshot)
    ensures GetStatCount(g, "humans") + GetStatCount(g, "bots") == |g.members|
  {
    FilterPartition(g.members, IsHuman, IsBot);
  }

  /** A channel name: the first "{count}" of the format replaced by the count. */
  function ChannelName(format: string, count: nat): (r: string)
    ensures Contains(format, Placeholder) ==>
              exists i :: OccursAt(format, Placeholder, i) &&
                          (forall j :: 0 <= j < i ==> !OccursAt(format, Placeholder, j)) &&
                          r == format[..i] + NatToString(count) + format[i + 7..]
    ensures !Contains(format, Placeholder) ==> r == format
  {
    if Contains(format, Placeholder) then
      var i := Find(format, Placeholder).value;
      SubstitutionOfDigits(NatToString(count), Placeholder, format[..i], format[i + |Placeholder|..]);
      ReplaceFirstAt(format, Placeholder, NatToString(count), i);
      ReplaceFirst(format, Placeholder, NatToString(count))
    else ReplaceFirstAbsent(format, Placeholder, NatToString(count)); ReplaceFirst(format, Placeholder, NatToString(count))
  }

  datatype Reply = Done | NotEnabled | MissingPlaceholder | Failed

  /** The map built by assigning ids[k] to ts[k] for k = 0, 1, ... in turn. */
  function Assigned(ts: seq<StatType>, ids: seq<string>): map<StatType, string>
    requires |ts| == |ids|
  {
    if |ts| == 0 then map[]
    else Assigned(ts[..|ts| - 1], ids[..|ts| - 1])[ts[|ts| - 1] := ids[|ts| - 1]]
  }

  /** With distinct keys every key ends up holding its own id and no other key appears. */
  lemma {:induction false} AssignedLookup(ts: seq<StatType>, ids: seq<string>)
    requires |ts| == |ids| && NoDups(ts)
    ensures Assigned(ts, ids).Keys == set t | t in ts
    ensures forall k :: 0 <= k < |ts| ==> Assigned(ts, ids)[ts[k]] == ids[k]
  {
    if |ts| > 0 {
      var n := |ts| - 1;
      AssignedLookup(ts[..n], ids[..n]);
      forall k | 0 <= k < n ensures Assigned(ts, ids)[ts[k]] == ids[k] {
        assert ts[k] != ts[n];
        assert ts[..n][k] == ts[k];
      }
      assert ts == ts[..n] + [ts[n]];
    }
  }

  function StatChannelName(g: GuildSnapshot, formats: map<StatType, string>, t: StatType): string
    requires t in formats
  {
    ChannelName(formats[t], GetStatCount(g, StatName(t)))
  }

  /** The names setup gives the channels of `ts`, in order. */
  function SetupNames(g: GuildSnapshot, formats: map<StatType, string>, ts: seq<StatType>): (names: seq<string>)
    requires forall t: StatType :: t in formats
    ensures |names| == |ts|
  {
    seq(|ts|, k requires 0 <= k < |ts| => StatChannelName(g, formats, ts[k]))
  }

  /** The k-th name is the k-th statistic's format filled with its count. */
  lemma SetupNamesAt(g: GuildSnapshot, formats: map<StatType, string>, ts: seq<StatType>, k: nat)
    requires forall t: StatType :: t in formats
    requires k < |ts|
    ensures SetupNames(g, formats, ts)[k] == ChannelName(formats[ts[k]], GetStatCount(g, StatName(ts[k])))
  {
  }

  lemma StatOrderDistinct()
    ensures NoDups(StatOrder)
  {
  }

  class Settings {
    var enabled: bool
    var categoryId: Option<string>
    var channels: map<StatType, string>
    var formats: map<StatType, string>
    var lastUpdated: Option<int>

    /** Every statistic has a format and every format holds the placeholder. */
    ghost predicate Valid()
      reads this
    {
      forall t: StatType :: t in formats && Contains(formats[t], Placeholder)
    }

    /** The state a freshly created section is in. */
    ghost predicate Initial()
      reads this
    {
      && !enabled && categoryId == None && channels == map[] && lastUpdated == None
      && forall t :: t in formats && formats[t] == DefaultFormat(t)
    }

    constructor ()
      ensures Initial() && Valid()
    {
      enabled := false;
      categoryId := None;
      channels := map[];
      var f := map t: StatType | t in StatOrder :: DefaultFormat(t);
      forall t: StatType ensures t in f { StatOrderComplete(t); }
      formats := f;
      lastUpdated := None;
    }

    /** `/serverstats setup`: one channel per statistic, in StatOrder, named from its
        format and current count. `created[i]` is the id the platform gave the i-th
        channel; `ok` is false when a creation failed, which leaves everything as it was. */
    method Setup(g: GuildSnapshot, category: string, created: seq<string>, ok: bool, now: int)
      returns (r: Reply, names: seq<string>)
      requires forall t: StatType :: t in formats
      requires |created| == |StatOrder|
      modifies this`enabled, this`categoryId, this`channels, this`lastUpdated
      ensures |names| == |StatOrder|
      ensures names == SetupNames(g, formats, StatOrder)
      ensures r == (if ok then Done else Failed)
      ensures ok ==> enabled && categoryId == Some(category) && lastUpdated == Some(now)
      ensures ok ==> channels == Assigned(StatOrder, created)
      ensures !ok ==> enabled == old(enabled) && categoryId == old(categoryId) &&
                      channels == old(channels) && lastUpdated == old(lastUpdated)
    {
      var m: map<StatType, string> := map[];
      names := [];
      ghost var target := SetupNames(g, formats, StatOrder);
      for i := 0 to |StatOrder|
        invariant names == target[..i]
        invariant m == Assigned(StatOrder[..i], created[..i])
        invariant unchanged(this)
      {
        var t := StatOrder[i];
        var name := StatChannelName(g, formats, t);
        PrefixGrow(target, i, name);
        names := names + [name];
        m := m[t := created[i]];
        assert StatOrder[..i + 1][..i] == StatOrder[..i];
        assert created[..i + 1][..i] == created[..i];
      }
      assert target[..|StatOrder|] == target;
      assert StatOrder[..|StatOrder|] == StatOrder && created[..|created|] == created;
      StatOrderDistinct();
      AssignedLookup(StatOrder, created);
      if !ok {
        return Failed, names;
      }
      enabled := true;
      categoryId := Some(category);
      channels := m;
      lastUpdated := Some(now);
      return Done, names;
    }

    /** `/serverstats disable`: the channels are deleted, then the map is cleared.
        `ok` is false when a deletion failed. */
    method Disable(ok: bool) returns (r: Reply)
      modifies this`enabled, this`channels
      ensures r == (if !old(enabled) then NotEnabled else if ok then Done else Failed)
      ensures r == Done ==> !enabled && channels == map[]
      ensures r != Done ==> enabled == old(enabled) && channels == old(channels)
    {
      if !enabled {
        return NotEnabled;
      }
      if !ok {
        return Failed;
      }
      enabled := false;
      channels := map[];
      return Done;
    }

    /** `/serverstats customize`: the format is stored before the rename is tried.
        `ok` is false when renaming the statistic's channel failed; the format
        stays stored and the reply is an error. */
    method Customize(t: StatType, format: string, ok: bool) returns (r: Reply)
      modifies this`formats
      ensures r == (if !old(enabled) then NotEnabled
                    else if !Contains(format, Placeholder) then MissingPlaceholder
                    else if ok then Done
                    else Failed)
      ensures formats == if r in {Done, Failed} then old(formats)[t := format] else old(formats)
      ensures old(Valid()) ==> Valid()
    {
      if !enabled {
        return NotEnabled;
      }
      if !Contains(format, Placeholder) {
        return MissingPlaceholder;
      }
      formats := formats[t := format];
      if !ok {
        return Failed;
      }
      return Done;
    }

    /** `/serverstats refresh`: only the timestamp is state. */
    method Refresh(ok: bool, now: int) returns (r: Reply)
      modifies this`lastUpdated
      ensures r == (if !old(enabled) then NotEnabled else if ok then Done else Failed)
      ensures lastUpdated == if r == Done then Some(now) else old(lastUpdated)
    {
      if !enabled {
        return NotEnabled;
      }
      if !ok {
        return Failed;
      }
      lastUpdated := Some(now);
      return Done;
    }
  }
}
