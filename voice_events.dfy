/** The voice-state handler of Voice Master (events/voiceStateUpdate.js): joining
    the hub channel creates a channel owned by the member and registers it;
    leaving a registered channel that is left empty deletes it and drops it from
    the registry. Creating, moving and deleting channels are platform calls whose
    outcomes are parameters. */
module VoiceEvents {
  import opened Common
  import opened VoiceMaster

  /** Every registered channel carries a user limit the platform accepts
      (Settings.Valid on a registry). */
  predicate LimitsValid(channels: map<string, Channel>)
  {
    forall id :: id in channels ==> ValidLimit(channels[id].userLimit)
  }

  /** Whether the member's new channel is the hub: the ids are compared as they
      are, so a missing hub id matches a member who left voice altogether. */
  predicate JoinedHub(hub: Option<string>, newChannel: Option<string>)
  {
    newChannel == hub
  }

  /** The join step: on entering the hub, the channel the platform created for the
      member (`created`, None when creating it or moving the member failed) is
      registered to them. */
  function AfterJoin(channels: map<string, Channel>, hub: Option<string>, newChannel: Option<string>,
                     created: Option<string>, member: string, username: string, now: int)
    : (r: map<string, Channel>)
    ensures JoinedHub(hub, newChannel) && created.Some? ==>
              && r.Keys == channels.Keys + {created.value}
              && r[created.value].ownerId == member && !r[created.value].locked
              && r[created.value].userLimit == 0 && r[created.value].createdAt == now
              && r[created.value].name == username + "'s Channel"
              && forall id :: id in channels && id != created.value ==> r[id] == channels[id]
    ensures !JoinedHub(hub, newChannel) || created.None? ==> r == channels
    ensures LimitsValid(channels) ==> LimitsValid(r)
  {
    if JoinedHub(hub, newChannel) && created.Some? then
      channels[created.value := NewChannel(member, username, now)]
    else channels
  }

  /** The leave step: a registered channel the member left is dropped once it is
      empty and the platform deleted it; a failed deletion keeps the entry. */
  function AfterLeave(channels: map<string, Channel>, oldChannel: Option<string>, empty: bool, deleted: bool)
    : (r: map<string, Channel>)
    ensures oldChannel.Some? && oldChannel.value in channels && empty && deleted ==>
              r.Keys == channels.Keys - {oldChannel.value}
    ensures forall id :: id in r ==> id in channels && r[id] == channels[id]
    ensures forall id :: id in channels && (oldChannel != Some(id) || !empty || !deleted) ==> id in r
    ensures LimitsValid(channels) ==> LimitsValid(r)
  {
    if oldChannel.Some? && oldChannel.value in channels && empty && deleted then
      channels - {oldChannel.value}
    else channels
  }

  /** One voice-state change of a member. `present` is whether the event carries
      both the guild and the member; `oldChannelEmpty` whether the channel left is
      in the cache with no members; `deleted` whether deleting it succeeded. The
      join is handled before the leave, on the registry the join updated. */
  method VoiceStateUpdate(vm: Settings?, present: bool, member: string, username: string, now: int,
                          oldChannel: Option<string>, newChannel: Option<string>, created: Option<string>,
                          oldChannelEmpty: bool, deleted: bool)
    modifies vm
    ensures vm != null ==>
              vm.enabled == old(vm.enabled) && vm.categoryId == old(vm.categoryId) &&
              vm.createChannelId == old(vm.createChannelId)
    ensures vm != null && (!present || !vm.enabled) ==> vm.channels == old(vm.channels)
    ensures vm != null && present && vm.enabled ==>
              vm.channels == AfterLeave(AfterJoin(old(vm.channels), vm.createChannelId, newChannel, created,
                                                  member, username, now),
                                        oldChannel, oldChannelEmpty, deleted)
    ensures vm != null && old(vm.Valid()) ==> vm.Valid()
  {
    if !present || vm == null || !vm.enabled {
      return;
    }
    assert vm.Valid() <==> LimitsValid(vm.channels);
    var joined := AfterJoin(vm.channels, vm.createChannelId, newChannel, created, member, username, now);
    vm.channels := AfterLeave(joined, oldChannel, oldChannelEmpty, deleted);
  }

  /** A member who creates a channel from the hub and later leaves it empty
      leaves the registry as it was. */
  lemma JoinThenLeave(channels: map<string, Channel>, hub: Option<string>, newChannel: Option<string>,
                      id: string, member: string, username: string, now: int)
    requires JoinedHub(hub, newChannel)
    requires id !in channels
    ensures AfterLeave(AfterJoin(channels, hub, newChannel, Some(id), member, username, now),
                       Some(id), true, true) == channels
  {
  }
}
