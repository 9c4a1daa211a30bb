/** AFK status: `/afk` (commands/utility/afk.js) records it and tags the
    nickname; the next message of the user (handleAfkStatus in
    events/messageCreate.js) clears it and strips the tag. The nickname change is
    the platform call the handlers make, returned here as a value. */
module Afk {
  import opened Common
  import Database

  const DefaultReason: string := "AFK"
  /** What a tagged nickname starts with. */
  const Marker: string := "[AFK]"
  /** What tagging puts in front of the name. */
  const Tag: string := "[AFK] "
  const MaxNickname: nat := 32

  /** The guild member as both handlers see it. */
  datatype Member = Member(manageable: bool, nickname: Option<string>, username: string)

  /** A nickname change asked of the platform: None resets the nickname. */
  datatype NickChange = Keep | SetNick(nick: Option<string>)

  /** `member.nickname || member.user.username`. */
  function DisplayName(m: Member): (n: string)
    ensures m.nickname.Some? && m.nickname.value != "" ==> n == m.nickname.value
    ensures m.nickname.None? || m.nickname.value == "" ==> n == m.username
  {
    if m.nickname.Some? && m.nickname.value != "" then m.nickname.value else m.username
  }

  /** `member.nickname?.startsWith("[AFK]")`. */
  predicate Tagged(m: Member)
  {
    m.nickname.Some? && StartsWith(m.nickname.value, Marker)
  }

  /** The `/afk` nickname rule: a manageable member not already tagged gets
      "[AFK] " before their display name, unless that exceeds 32 UTF-16 code units. */
  function AfkNickname(member: Option<Member>): (c: NickChange)
    ensures c.SetNick? <==>
              member.Some? && member.value.manageable && !Tagged(member.value) &&
              JsLength(Tag + DisplayName(member.value)) <= MaxNickname
    ensures c.SetNick? ==> c.nick == Some(Tag + DisplayName(member.value))
    ensures c.SetNick? ==> StartsWith(c.nick.value, Marker) && JsLength(c.nick.value) <= MaxNickname
  {
    if member.Some? && member.value.manageable && !Tagged(member.value) then
      var nick := Tag + DisplayName(member.value);
      assert nick[..|Marker|] == Marker;
      if JsLength(nick) <= MaxNickname then SetNick(Some(nick)) else Keep
    else Keep
  }

  /** `/afk`: the record is set whatever happens to the nickname. */
  method SetAfk(u: Database.User, reason: Option<string>, now: int, member: Option<Member>)
    returns (change: NickChange)
    modifies u`afk
    ensures u.afk == Some(Database.Afk(true, if reason.Some? && reason.value != "" then reason.value else DefaultReason, now))
    ensures change == AfkNickname(member)
  {
    var text := if reason.Some? && reason.value != "" then reason.value else DefaultReason;
    u.afk := Some(Database.Afk(true, text, now));
    change := AfkNickname(member);
  }

  /** The nickname rule on return: a manageable member whose nickname starts
      with "[AFK]" loses the first "[AFK] " in it, and a result equal to the
      username resets the nickname. */
  function ReturnNickname(member: Option<Member>): (c: NickChange)
    ensures c.SetNick? <==> member.Some? && member.value.manageable && Tagged(member.value)
    ensures c.SetNick? ==>
              var stripped := ReplaceFirst(member.value.nickname.value, Tag, "");
              c.nick == if stripped == member.value.username then None else Some(stripped)
  {
    if member.Some? && member.value.manageable && Tagged(member.value) then
      var stripped := ReplaceFirst(member.value.nickname.value, Tag, "");
      SetNick(if stripped == member.value.username then None else Some(stripped))
    else Keep
  }

  /** The state part of handleAfkStatus: only an active AFK record is touched,
      and it keeps its reason and time with the status cleared. */
  method ReturnFromAfk(u: Database.User, member: Option<Member>) returns (returned: bool, change: NickChange)
    modifies u`afk
    ensures returned <==> old(u.afk).Some? && old(u.afk).value.status
    ensures returned ==> u.afk == Some(old(u.afk).value.(status := false)) && change == ReturnNickname(member)
    ensures !returned ==> u.afk == old(u.afk) && change == Keep
  {
    if u.afk.Some? && u.afk.value.status {
      u.afk := Some(u.afk.value.(status := false));
      return true, ReturnNickname(member);
    }
    return false, Keep;
  }

  /** Stripping the tag that `/afk` added gives back the display name. */
  lemma StripTag(name: string)
    ensures ReplaceFirst(Tag + name, Tag, "") == name
  {
    ReplaceFirstPrefix(Tag, name);
  }

  /** Going AFK and coming back restores the nickname: a member whose display
      name was their own nickname gets it back; one shown by their username has
      the nickname reset. */
  lemma AfkRoundTrip(m: Member)
    requires AfkNickname(Some(m)).SetNick?
    ensures var tagged := m.(nickname := AfkNickname(Some(m)).nick);
      ReturnNickname(Some(tagged)) ==
        SetNick(if DisplayName(m) == m.username then None else Some(DisplayName(m)))
  {
    var nick := Tag + DisplayName(m);
    StripTag(DisplayName(m));
    assert nick[..|Marker|] == Marker;
  }

  /** The whole minutes since `since` shown when an AFK user is mentioned
      (Math.floor of a millisecond difference). */
  function MinutesAway(a: Database.Afk, now: int): (minutes: int)
    ensures minutes * 60000 <= now - a.since < (minutes + 1) * 60000
  {
    (now - a.since) / 60000
  }
}
