/** The guild's youtube section and the `/youtube` subcommands
    (commands/integrations/youtube.js). Channel ids are compared exactly. */
module YouTube {
  import opened Common

  const DefaultMessage: string := "{channel} just uploaded a new video: **{title}**! Check it out: {url}"
  const PlaceholderName: string := "YouTube Channel"

  datatype Subscription = Subscription(
    channelId: string, channelName: string, discordChannelId: string, message: string,
    addedAt: int, lastVideoId: Option<string>, lastNotification: Option<int>)

  datatype Reply = Done | AlreadyAdded | UnknownChannel | NoChannels

  predicate HasChannelId(channelId: string, c: Subscription) { c.channelId == channelId }

  class Registry {
    var channels: seq<Subscription>

    /** Each YouTube channel is subscribed once. */
    ghost predicate Valid()
      reads this
    {
      forall i, j :: 0 <= i < j < |channels| ==> channels[i].channelId != channels[j].channelId
    }

    /** The state a freshly created section is in. */
    ghost predicate Initial()
      reads this
    {
      channels == []
    }

    constructor ()
      ensures Initial() && Valid()
    {
      channels := [];
    }

    method Add(channelId: string, discordChannel: string, message: Option<string>, now: int) returns (r: Reply)
      modifies this
      ensures r == (if FindIndex(old(channels), c => HasChannelId(channelId, c)) == -1 then Done else AlreadyAdded)
      ensures channels == if r == Done then old(channels) + [Subscription(channelId, PlaceholderName, discordChannel,
                                                                          OrDefault(message, DefaultMessage), now, None, None)]
                          else old(channels)
      ensures old(Valid()) ==> Valid()
    {
      var i := FindIndex(channels, c => HasChannelId(channelId, c));
      if i != -1 {
        return AlreadyAdded;
      }
      channels := channels + [Subscription(channelId, PlaceholderName, discordChannel, OrDefault(message, DefaultMessage), now, None, None)];
      return Done;
    }

    method Remove(channelId: string) returns (r: Reply)
      modifies this
      ensures var i := FindIndex(old(channels), c => HasChannelId(channelId, c));
        && r == (if i == -1 then UnknownChannel else Done)
        && channels == if i == -1 then old(channels) else RemoveAt(old(channels), i)
      ensures old(Valid()) ==> Valid()
    {
      var i := FindIndex(channels, c => HasChannelId(channelId, c));
      if i == -1 {
        return UnknownChannel;
      }
      channels := RemoveAt(channels, i);
      return Done;
    }

    /** The list subcommand: refused when nothing is set up. */
    function ListCheck(): (r: Reply)
      reads this
      ensures r == Done <==> |channels| > 0
      ensures r != Done ==> r == NoChannels
    {
      if |channels| == 0 then NoChannels else Done
    }
  }
}
