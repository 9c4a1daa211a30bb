/** The guild's twitch section and the `/twitch` subcommands
    (commands/integrations/twitch.js). Usernames are folded to lower case before
    they are stored or looked up; whether the stream exists is not checked. */
module Twitch {
  import opened Common

  const DefaultMessage: string :=
    "{streamer} is now live on Twitch! They're playing {game}. Come watch at https://twitch.tv/{streamer}"

  datatype Streamer = Streamer(
    username: string, channelId: string, message: string, addedAt: int,
    lastNotification: Option<int>, isLive: bool)

  datatype Reply = Done | AlreadyAdded | UnknownStreamer | NoStreamers

  predicate SameUser(username: string, s: Streamer)
  {
    ToLower(s.username) == ToLower(username)
  }

  class Registry {
    var streamers: seq<Streamer>

    /** Usernames are stored in lower case and each appears once. */
    ghost predicate Valid()
      reads this
    {
      && (forall i :: 0 <= i < |streamers| ==> IsLowerCase(streamers[i].username))
      && (forall i, j :: 0 <= i < j < |streamers| ==> streamers[i].username != streamers[j].username)
    }

    /** The state a freshly created section is in. */
    ghost predicate Initial()
      reads this
    {
      streamers == []
    }

    constructor ()
      ensures Initial() && Valid()
    {
      streamers := [];
    }

    method Add(username: string, channel: string, message: Option<string>, now: int) returns (r: Reply)
      modifies this
      ensures var name := ToLower(username);
        && r == (if FindIndex(old(streamers), s => SameUser(name, s)) == -1 then Done else AlreadyAdded)
        && streamers == if r == Done then old(streamers) + [Streamer(name, channel, OrDefault(message, DefaultMessage), now, None, false)]
                        else old(streamers)
      ensures old(Valid()) ==> Valid()
    {
      var name := ToLower(username);
      var i := FindIndex(streamers, s => SameUser(name, s));
      if i != -1 {
        return AlreadyAdded;
      }
      ghost var before := streamers;
      streamers := streamers + [Streamer(name, channel, OrDefault(message, DefaultMessage), now, None, false)];
      forall k | 0 <= k < |before| && IsLowerCase(before[k].username) ensures before[k].username != name {
        assert !SameUser(name, before[k]);
        ToLowerOfLower(before[k].username);
        ToLowerIdempotent(username);
      }
      return Done;
    }

    method Remove(username: string) returns (r: Reply)
      modifies this
      ensures var name := ToLower(username);
        var i := FindIndex(old(streamers), s => SameUser(name, s));
        && r == (if i == -1 then UnknownStreamer else Done)
        && streamers == if i == -1 then old(streamers) else RemoveAt(old(streamers), i)
      ensures old(Valid()) ==> Valid()
    {
      var name := ToLower(username);
      var i := FindIndex(streamers, s => SameUser(name, s));
      if i == -1 {
        return UnknownStreamer;
      }
      streamers := RemoveAt(streamers, i);
      return Done;
    }

    /** The list subcommand: refused when nothing is set up. */
    function ListCheck(): (r: Reply)
      reads this
      ensures r == Done <==> |streamers| > 0
      ensures r != Done ==> r == NoStreamers
    {
      if |streamers| == 0 then NoStreamers else Done
    }

    /** On a consistent registry, add refuses exactly the usernames already present
        in any case. */
    lemma AddRefusesPresent(username: string)
      requires Valid()
      ensures FindIndex(streamers, s => SameUser(ToLower(username), s)) != -1 <==>
              exists k :: 0 <= k < |streamers| && streamers[k].username == ToLower(username)
    {
      var name := ToLower(username);
      ToLowerIdempotent(username);
      var i := FindIndex(streamers, s => SameUser(name, s));
      if i != -1 {
        ToLowerOfLower(streamers[i].username);
      } else {
        forall k | 0 <= k < |streamers| ensures streamers[k].username != name {
          ToLowerOfLower(streamers[k].username);
        }
      }
    }
  }
}
