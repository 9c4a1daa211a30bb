/** The Voice Master section of a guild record: the settings that commands/voice/setup.js
    writes and the registry of user-owned voice channels that the join/leave event,
    the panel buttons and the voice commands read and update. */
module VoiceMaster {
  import opened Common

  /** One registered channel. `region` is absent until commands/voice/region.js sets it. */
  datatype Channel = Channel(ownerId: string, name: string, locked: bool, userLimit: int, createdAt: int,
                             region: Option<string>)

  /** The largest user limit a voice channel accepts; 0 means no limit. */
  const MaxUserLimit := 99

  predicate ValidLimit(n: int) { 0 <= n <= MaxUserLimit }

  class Settings {
    var enabled: bool
    var categoryId: Option<string>
    var createChannelId: Option<string>
    var channels: map<string, Channel>

    /** Every registered channel carries a user limit the platform accepts. */
    ghost predicate Valid()
      reads this
    {
      forall id :: id in channels ==> ValidLimit(channels[id].userLimit)
    }

    /** The state a freshly created section is in. */
    ghost predicate Initial()
      reads this
    {
      !enabled && categoryId == None && createChannelId == None && channels == map[]
    }

    /** The section as getGuild creates it: disabled, no ids, empty registry. */
    constructor ()
      ensures Initial() && Valid()
    {
      enabled := false;
      categoryId := None;
      createChannelId := None;
      channels := map[];
    }

    /** `/voicemaster setup`: enable with the given category and hub channel; the registry is kept. */
    method Setup(category: string, createChannel: string)
      modifies this
      ensures enabled && categoryId == Some(category) && createChannelId == Some(createChannel)
      ensures channels == old(channels)
      ensures old(Valid()) ==> Valid()
    {
      enabled := true;
      categoryId := Some(category);
      createChannelId := Some(createChannel);
    }

    /** `/voicemaster disable`: only the flag changes; the registry stays intact. */
    method Disable()
      modifies this`enabled
      ensures !enabled
    {
      enabled := false;
    }
  }

  /** How a caller stands with respect to the voice channel they are in,
      following the guard chain every Voice Master handler repeats. */
  datatype Access =
    | NoVoiceChannel                  // the caller is not in a voice channel
    | SystemDisabled                  // no section, or the section is disabled
    | Unregistered                    // the channel is not in the registry
    | OwnedByOther(owner: string)     // registered, owned by someone else
    | OwnedByCaller                   // registered, owned by the caller

  function Classify(vm: Settings?, channel: Option<string>, caller: string): (a: Access)
    reads vm
    ensures a == NoVoiceChannel <==> channel.None?
    ensures a == SystemDisabled <==> channel.Some? && (vm == null || !vm.enabled)
    ensures a == Unregistered <==> channel.Some? && vm != null && vm.enabled && channel.value !in vm.channels
    ensures a.OwnedByOther? <==>
              channel.Some? && vm != null && vm.enabled && channel.value in vm.channels &&
              vm.channels[channel.value].ownerId != caller
    ensures a.OwnedByOther? ==> a.owner == vm.channels[channel.value].ownerId
    ensures a == OwnedByCaller <==>
              channel.Some? && vm != null && vm.enabled && channel.value in vm.channels &&
              vm.channels[channel.value].ownerId == caller
  {
    if channel.None? then NoVoiceChannel
    else if vm == null || !vm.enabled then SystemDisabled
    else if channel.value !in vm.channels then Unregistered
    else if vm.channels[channel.value].ownerId != caller then OwnedByOther(vm.channels[channel.value].ownerId)
    else OwnedByCaller
  }

  /** The record stored for a freshly created channel. */
  function NewChannel(owner: string, username: string, now: int): (c: Channel)
    ensures c.ownerId == owner && !c.locked && c.userLimit == 0 && c.region == None
    ensures c.name == username + "'s Channel"
  {
    Channel(owner, username + "'s Channel", false, 0, now, None)
  }

  /** The replies of the voice commands, the template command and the panel buttons. */
  datatype Reply =
    | Done
    | NoLimit                // limit 0 was set: the channel has no user limit
    | NotInVoice
    | NotEnabled
    | NotVoiceMasterChannel
    | NotOwner
    | AlreadyOwner
    | OwnerPresent
    | NameTooLong
    | InvalidLimit
    | MemberMissing
    | Failed                 // the platform call failed
    | NotSetUp
    | AlreadyExists
    | UnknownTemplate
    | NoTemplates

  /** The guard of lock, unlock, limit and name: a channel outside the registry
      gets the same "not the owner" refusal as one owned by someone else. */
  function OwnerGate(a: Access): (r: Option<Reply>)
    ensures r.None? <==> a == OwnedByCaller
    ensures a == NoVoiceChannel ==> r == Some(NotInVoice)
    ensures a == SystemDisabled ==> r == Some(NotEnabled)
    ensures a == Unregistered || a.OwnedByOther? ==> r == Some(NotOwner)
  {
    match a
    case NoVoiceChannel => Some(NotInVoice)
    case SystemDisabled => Some(NotEnabled)
    case Unregistered => Some(NotOwner)
    case OwnedByOther(_) => Some(NotOwner)
    case OwnedByCaller => None
  }

  /** The guard of region, permissions and the templates, which tell an
      unregistered channel apart from one owned by someone else. */
  function RegisteredOwnerGate(a: Access): (r: Option<Reply>)
    ensures r.None? <==> a == OwnedByCaller
    ensures a == NoVoiceChannel ==> r == Some(NotInVoice)
    ensures a == SystemDisabled ==> r == Some(NotEnabled)
    ensures a == Unregistered ==> r == Some(NotVoiceMasterChannel)
    ensures a.OwnedByOther? ==> r == Some(NotOwner)
  {
    match a
    case NoVoiceChannel => Some(NotInVoice)
    case SystemDisabled => Some(NotEnabled)
    case Unregistered => Some(NotVoiceMasterChannel)
    case OwnedByOther(_) => Some(NotOwner)
    case OwnedByCaller => None
  }
}
