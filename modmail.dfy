/** The modmail section of a guild record, the `/modmail` subcommands
    (commands/modmail/modmail.js) and the blocked-user gate of the DM handler in
    events/messageCreate.js. */
module Modmail {
  import opened Common

  const NoReason: string := "No reason provided."

  /** `reason || "No reason provided."`. */
  function ReasonOrDefault(reason: Option<string>): (r: string)
    ensures reason.Some? && reason.value != "" ==> r == reason.value
    ensures reason.None? || reason.value == "" ==> r == NoReason
  {
    if reason.Some? && reason.value != "" then reason.value else NoReason
  }

  datatype Block = Block(id: string, reason: string, blockedBy: string, blockedAt: int)

  /** An open thread, keyed in `activeThreads` by the user who opened it. */
  datatype Thread = Thread(channelId: string, createdAt: int)

  predicate BlocksUser(user: string, b: Block) { b.id == user }

  datatype Reply = Done | NotAThread | AlreadyBlocked | NotBlocked

  /** What the DM handler does for one guild. */
  datatype Gate = Skip | Blocked(reason: string) | Forward

  class Settings {
    var enabled: bool
    var categoryId: Option<string>
    var staffRoleId: Option<string>
    var blockedUsers: seq<Block>
    var activeThreads: map<string, Thread>

    /** Nobody is blocked twice. */
    ghost predicate Valid()
      reads this
    {
      forall i, j :: 0 <= i < j < |blockedUsers| ==> blockedUsers[i].id != blockedUsers[j].id
    }

    predicate IsBlocked(user: string)
      reads this
    {
      exists i :: 0 <= i < |blockedUsers| && blockedUsers[i].id == user
    }

    /** Whether `channel` is the channel of some open thread. */
    predicate IsThreadChannel(channel: string)
      reads this
    {
      exists u :: u in activeThreads && activeThreads[u].channelId == channel
    }

    /** The state a freshly created section is in. */
    ghost predicate Initial()
      reads this
    {
      && !enabled && categoryId == None && staffRoleId == None
      && blockedUsers == [] && activeThreads == map[]
    }

    constructor ()
      ensures Initial() && Valid()
    {
      enabled := false;
      categoryId := None;
      staffRoleId := None;
      blockedUsers := [];
      activeThreads := map[];
    }

    method Setup(category: string, staffRole: string)
      modifies this`enabled, this`categoryId, this`staffRoleId
      ensures enabled && categoryId == Some(category) && staffRoleId == Some(staffRole)
    {
      enabled := true;
      categoryId := Some(category);
      staffRoleId := Some(staffRole);
    }

    method Disable()
      modifies this`enabled
      ensures !enabled
    {
      enabled := false;
    }

    /** `/modmail close` in a thread channel: after the closing notice the thread's
        entry is dropped, whether or not the channel deletion succeeds. `replied` is
        whether the closing notice could be posted. */
    method Close(channel: string, replied: bool) returns (r: Reply)
      modifies this`activeThreads
      ensures r == (if old(IsThreadChannel(channel)) then Done else NotAThread)
      ensures r == NotAThread || !replied ==> activeThreads == old(activeThreads)
      ensures r == Done && replied ==>
                exists u :: u in old(activeThreads) && old(activeThreads)[u].channelId == channel &&
                            activeThreads == old(activeThreads) - {u}
    {
      if !IsThreadChannel(channel) {
        return NotAThread;
      }
      var u :| u in activeThreads && activeThreads[u].channelId == channel;
      if replied {
        activeThreads := activeThreads - {u};
      }
      return Done;
    }

    /** `/modmail reply` only checks that it runs in a thread channel. */
    function ReplyCheck(channel: string): (r: Reply)
      reads this
      ensures r == Done <==> IsThreadChannel(channel)
      ensures r != Done ==> r == NotAThread
    {
      if IsThreadChannel(channel) then Done else NotAThread
    }

    /** `/modmail block`: the user is added once, and an open thread of theirs is
        closed. The thread entry stays only when its channel exists and the closing
        notice could not be sent (`channelFound`, `noticeSent`). */
    method BlockUser(user: string, reason: Option<string>, staff: string, now: int,
                     channelFound: bool, noticeSent: bool) returns (r: Reply)
      modifies this`blockedUsers, this`activeThreads
      ensures r == (if old(IsBlocked(user)) then AlreadyBlocked else Done)
      ensures blockedUsers == if r == Done then old(blockedUsers) + [Block(user, ReasonOrDefault(reason), staff, now)]
                              else old(blockedUsers)
      ensures activeThreads == if r == Done && (!channelFound || noticeSent) then old(activeThreads) - {user}
                               else old(activeThreads)
      ensures r == Done ==> IsBlocked(user)
      ensures old(Valid()) ==> Valid()
    {
      if IsBlocked(user) {
        return AlreadyBlocked;
      }
      blockedUsers := blockedUsers + [Block(user, ReasonOrDefault(reason), staff, now)];
      assert blockedUsers[|blockedUsers| - 1].id == user;
      if user in activeThreads && (!channelFound || noticeSent) {
        activeThreads := activeThreads - {user};
      }
      return Done;
    }

    /** `/modmail unblock`: removes the user's first block entry. */
    method Unblock(user: string) returns (r: Reply)
      modifies this`blockedUsers
      ensures var i := FindIndex(old(blockedUsers), b => BlocksUser(user, b));
        && r == (if i == -1 then NotBlocked else Done)
        && blockedUsers == if i == -1 then old(blockedUsers) else RemoveAt(old(blockedUsers), i)
      ensures r == Done <==> old(IsBlocked(user))
      ensures old(Valid()) ==> Valid() && !IsBlocked(user)
    {
      var i := FindIndex(blockedUsers, b => BlocksUser(user, b));
      if i == -1 {
        assert !IsBlocked(user);
        return NotBlocked;
      }
      blockedUsers := RemoveAt(blockedUsers, i);
      return Done;
    }
  }

  /** One guild's turn in the DM handler: guilds without modmail are skipped, a
      blocked user is told the reason of the first matching block. */
  function DmGate(m: Settings?, user: string): (g: Gate)
    reads m
    ensures g == Skip <==> m == null || !m.enabled
    ensures g.Blocked? <==> m != null && m.enabled && m.IsBlocked(user)
    ensures g.Blocked? ==>
              var i := FindIndex(m.blockedUsers, b => BlocksUser(user, b));
              0 <= i && g.reason == m.blockedUsers[i].reason
  {
    if m == null || !m.enabled then Skip
    else
      var i := FindIndex(m.blockedUsers, b => BlocksUser(user, b));
      if i == -1 then Forward else Blocked(m.blockedUsers[i].reason)
  }
}
