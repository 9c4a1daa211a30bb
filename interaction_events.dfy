/** The component handlers of events/interactionCreate.js that decide something
    over stored state: the reaction-role buttons, the Voice Master panel (its
    guard, the lock and claim buttons, the rename and limit forms), the music
    dashboard buttons and the role-menu select. The ticket and verification
    buttons and forms are the Tickets and Verification modules' CreateButton,
    SubmitTicket, ConfirmClose, ButtonCheck and AnswerCheck. Member roles are the
    platform's; they are passed in as the set the member holds. */
module InteractionEvents {
  import opened Common
  import opened VoiceMaster
  import Music
  import RoleMenus
  import ReactionRoles

  // ---------------------------------------------------------------------
  // Reaction-role buttons
  // ---------------------------------------------------------------------

  const RoleButtonPrefix: string := "role_"

  /** The role a button toggles: the id with the first "role_" removed, for ids
      that start with it. */
  function ButtonRole(customId: string): (r: Option<string>)
    ensures r.Some? <==> StartsWith(customId, RoleButtonPrefix)
    ensures r.Some? ==> customId == RoleButtonPrefix + r.value
  {
    if StartsWith(customId, RoleButtonPrefix) then
      var rest := customId[|RoleButtonPrefix|..];
      assert customId == RoleButtonPrefix + rest;
      ReplaceFirstPrefix(RoleButtonPrefix, rest);
      Some(ReplaceFirst(customId, RoleButtonPrefix, ""))
    else None
  }

  /** Every button that reaction-role setup posts toggles the role of its own slot. */
  lemma SetupButtonToggles(bindings: seq<ReactionRoles.Binding>, k: nat)
    requires k < |bindings|
    ensures ButtonRole(ReactionRoles.ButtonIds(bindings)[k]) == Some(bindings[k].roleId)
  {
    var id := ReactionRoles.ButtonIds(bindings)[k];
    assert id == RoleButtonPrefix + bindings[k].roleId;
    assert id[..|RoleButtonPrefix|] == RoleButtonPrefix;
  }

  /** The member's roles after pressing the button of `roleId`: removed when held,
      added otherwise. */
  function PressRoleButton(held: set<string>, roleId: string): (after: set<string>)
    ensures roleId in after <==> roleId !in held
    ensures forall x :: x != roleId ==> (x in after <==> x in held)
  {
    if roleId in held then held - {roleId} else held + {roleId}
  }

  /** Pressing the same role button twice gives the member back their roles. */
  lemma PressTwice(held: set<string>, roleId: string)
    ensures PressRoleButton(PressRoleButton(held, roleId), roleId) == held
  {
    var once := PressRoleButton(held, roleId);
    var twice := PressRoleButton(once, roleId);
    forall x ensures x in twice <==> x in held {
      if x == roleId {
        assert x in once <==> x !in held;
      }
    }
  }

  // ---------------------------------------------------------------------
  // The Voice Master panel
  // ---------------------------------------------------------------------

  const LockButtonId: string := "voice_lock"
  const ClaimButtonId: string := "voice_claim"

  /** The guard in front of every panel button: in a voice channel, the system on,
      the channel registered, and the caller its owner, except for the claim button,
      which anybody in the channel may press. */
  function PanelRefusal(vm: Settings?, channel: Option<string>, caller: string, customId: string)
    : (r: Option<Reply>)
    reads vm
    ensures customId != ClaimButtonId ==> r == RegisteredOwnerGate(Classify(vm, channel, caller))
    ensures r.None? <==> channel.Some? && vm != null && vm.enabled && channel.value in vm.channels &&
                         (customId == ClaimButtonId || vm.channels[channel.value].ownerId == caller)
  {
    match Classify(vm, channel, caller)
    case OwnedByOther(_) => if customId == ClaimButtonId then None else Some(NotOwner)
    case a => RegisteredOwnerGate(a)
  }

  /** The lock button flips the channel's `locked` flag, once the permission change
      went through (`ok`). */
  method LockButton(vm: Settings?, channel: Option<string>, caller: string, ok: bool) returns (r: Reply)
    modifies vm
    ensures var refusal := old(PanelRefusal(vm, channel, caller, LockButtonId));
      r == (if refusal.Some? then refusal.value else if ok then Done else Failed)
    ensures r == Done ==>
              var c := old(vm.channels)[channel.value];
              vm.channels == old(vm.channels)[channel.value := c.(locked := !c.locked)]
    ensures r == Done ==> vm.channels[channel.value].locked == !old(vm.channels)[channel.value].locked
    ensures vm != null && r != Done ==> vm.channels == old(vm.channels)
    ensures vm != null ==> vm.enabled == old(vm.enabled) && vm.categoryId == old(vm.categoryId) &&
                           vm.createChannelId == old(vm.createChannelId)
    ensures vm != null && old(vm.Valid()) ==> vm.Valid()
  {
    var refusal := PanelRefusal(vm, channel, caller, LockButtonId);
    if refusal.Some? {
      return refusal.value;
    }
    if !ok {
      return Failed;
    }
    var c := vm.channels[channel.value];
    vm.channels := vm.channels[channel.value := c.(locked := !c.locked)];
    return Done;
  }

  /** The claim button. The owner is changed before the new owner's permissions
      are granted, so it stays changed when that grant fails (`permissionsOk`). */
  method ClaimButton(vm: Settings?, channel: Option<string>, caller: string, ownerPresent: bool,
                     permissionsOk: bool) returns (r: Reply)
    modifies vm
    ensures var refusal := old(PanelRefusal(vm, channel, caller, ClaimButtonId));
      r == (if refusal.Some? then refusal.value
            else if old(vm.channels)[channel.value].ownerId == caller then AlreadyOwner
            else if ownerPresent then OwnerPresent
            else if permissionsOk then Done
            else Failed)
    ensures r in {Done, Failed} ==>
              vm.channels == old(vm.channels)[channel.value := old(vm.channels)[channel.value].(ownerId := caller)]
    ensures r in {Done, Failed} ==> Classify(vm, channel, caller) == OwnedByCaller
    ensures vm != null && r !in {Done, Failed} ==> vm.channels == old(vm.channels)
    ensures vm != null ==> vm.enabled == old(vm.enabled) && vm.categoryId == old(vm.categoryId) &&
                           vm.createChannelId == old(vm.createChannelId)
    ensures vm != null && old(vm.Valid()) ==> vm.Valid()
  {
    var refusal := PanelRefusal(vm, channel, caller, ClaimButtonId);
    if refusal.Some? {
      return refusal.value;
    }
    var c := vm.channels[channel.value];
    if c.ownerId == caller {
      return AlreadyOwner;
    }
    if ownerPresent {
      return OwnerPresent;
    }
    vm.channels := vm.channels[channel.value := c.(ownerId := caller)];
    return if permissionsOk then Done else Failed;
  }

  /** The rename form: the guards again, then the name is stored once the platform
      renamed the channel (`ok`). The form itself caps the name at 100 characters. */
  method RenameForm(vm: Settings?, channel: Option<string>, caller: string, newName: string, ok: bool)
    returns (r: Reply)
    modifies vm
    ensures var refusal := old(RegisteredOwnerGate(Classify(vm, channel, caller)));
      r == (if refusal.Some? then refusal.value else if ok then Done else Failed)
    ensures r == Done ==>
              vm.channels == old(vm.channels)[channel.value := old(vm.channels)[channel.value].(name := newName)]
    ensures vm != null && r != Done ==> vm.channels == old(vm.channels)
    ensures vm != null ==> vm.enabled == old(vm.enabled) && vm.categoryId == old(vm.categoryId) &&
                           vm.createChannelId == old(vm.createChannelId)
    ensures vm != null && old(vm.Valid()) ==> vm.Valid()
  {
    var refusal := RegisteredOwnerGate(Classify(vm, channel, caller));
    if refusal.Some? {
      return refusal.value;
    }
    if !ok {
      return Failed;
    }
    var c := vm.channels[channel.value];
    vm.channels := vm.channels[channel.value := c.(name := newName)];
    return Done;
  }

  // ---------------------------------------------------------------------
  // Number.parseInt, as the limit form reads its text
  // ---------------------------------------------------------------------

  /** The longest prefix of `s` whose characters all satisfy `p`. */
  function Leading(s: string, p: char -> bool): (d: string)
    ensures |d| <= |s| && d == s[..|d|]
    ensures forall i :: 0 <= i < |d| ==> p(d[i])
    ensures |d| < |s| ==> !p(s[|d|])
  {
    if s != [] && p(s[0]) then [s[0]] + Leading(s[1..], p) else []
  }

  function HexDigitValue(c: char): nat
    requires IsHexDigit(c)
  {
    if IsDigit(c) then c as int - '0' as int
    else if 'a' <= c <= 'f' then c as int - 'a' as int + 10
    else c as int - 'A' as int + 10
  }

  function HexValue(s: string): nat
    requires forall i :: 0 <= i < |s| ==> IsHexDigit(s[i])
  {
    if s == [] then 0 else HexValue(s[..|s| - 1]) * 16 + HexDigitValue(s[|s| - 1])
  }

  /** Number.parseInt without a radix: leading white space is skipped, then an
      optional sign; "0x" or "0X" switches to hexadecimal; the longest run of digits
      that follows is the value, and None (NaN) when there is none. */
  function ParseInt(s: string): Option<int>
  {
    ParseSigned(TrimStart(s))
  }

  /** The optional sign and the magnitude after it. */
  function ParseSigned(t: string): Option<int>
  {
    var negative := t != [] && t[0] == '-';
    var body := if t != [] && (t[0] == '-' || t[0] == '+') then t[1..] else t;
    var magnitude := ParseMagnitude(body);
    if magnitude.None? then None else Some(if negative then -magnitude.value else magnitude.value)
  }

  /** The digits after the sign: hexadecimal after "0x" or "0X", decimal otherwise. */
  function ParseMagnitude(body: string): Option<int>
  {
    if |body| >= 2 && body[0] == '0' && (body[1] == 'x' || body[1] == 'X') then
      var h := Leading(body[2..], IsHexDigit);
      if h == [] then None else Some(HexValue(h))
    else
      var d := Leading(body, IsDigit);
      if d == [] then None else Some(DigitsValue(d))
  }

  /** Skipping white space stops at the first character that is not white space. */
  lemma TrimStartAfterSpaces(s: string, ws: string, x: string)
    requires s == ws + x
    requires forall i :: 0 <= i < |ws| ==> IsSpace(ws[i])
    requires x == [] || !IsSpace(x[0])
    ensures TrimStart(s) == x
  {
    assert s[|ws|..] == x;
  }

  /** What the text parses to, from where the white space ends. */
  lemma ParseIntFromTrimmed(s: string, x: string)
    requires TrimStart(s) == x
    ensures ParseInt(s) == ParseSigned(x)
  {
  }

  /** Text that does not start with white space parses as it stands. */
  lemma ParseIntOfUnspaced(x: string, r: Option<int>)
    requires x != [] && !IsSpace(x[0]) && ParseSigned(x) == r
    ensures ParseInt(x) == r
  {
    TrimStartAfterSpaces(x, [], x);
    ParseIntFromTrimmed(x, x);
  }

  /** White space in front of the text does not change what it parses to. */
  lemma ParseIntAfterSpaces(ws: string, x: string)
    requires forall i :: 0 <= i < |ws| ==> IsSpace(ws[i])
    requires x != [] && !IsSpace(x[0])
    ensures ParseInt(ws + x) == ParseInt(x)
  {
    TrimStartAfterSpaces(ws + x, ws, x);
    ParseIntFromTrimmed(ws + x, x);
    ParseIntOfUnspaced(x, ParseSigned(x));
  }

  lemma LeadingOfDigits(digits: string, tail: string)
    requires IsAllDigits(digits)
    requires tail == [] || !IsDigit(tail[0])
    ensures Leading(digits + tail, IsDigit) == digits
  {
    var s := digits + tail;
    var d := Leading(s, IsDigit);
    assert s[..|digits|] == digits;
  }

  /** Digits followed by something other than a digit read as their value. A "0"
      followed by "x" would start a hexadecimal number instead, so the text after the
      digits does not start with "x" or "X". */
  lemma MagnitudeOfDigits(digits: string, tail: string)
    requires IsAllDigits(digits)
    requires tail == [] || (!IsDigit(tail[0]) && tail[0] != 'x' && tail[0] != 'X')
    ensures ParseMagnitude(digits + tail) == Some(DigitsValue(digits))
  {
    var body := digits + tail;
    LeadingOfDigits(digits, tail);
    if |body| >= 2 {
      if |digits| >= 2 {
        assert body[1] == digits[1];
      } else {
        assert body[1] == tail[0];
      }
    }
  }

  /** Unsigned digits after the white space. */
  lemma SignedOfDigits(x: string, digits: string, tail: string)
    requires x == digits + tail && IsAllDigits(digits)
    requires tail == [] || (!IsDigit(tail[0]) && tail[0] != 'x' && tail[0] != 'X')
    ensures ParseSigned(x) == Some(DigitsValue(digits))
  {
    MagnitudeOfDigits(digits, tail);
    assert x[0] == digits[0];
  }

  /** Digits after a minus sign. */
  lemma SignedOfNegativeDigits(x: string, digits: string, tail: string)
    requires x == "-" + (digits + tail) && IsAllDigits(digits)
    requires tail == [] || (!IsDigit(tail[0]) && tail[0] != 'x' && tail[0] != 'X')
    ensures ParseSigned(x) == Some(-(DigitsValue(digits) as int))
  {
    MagnitudeOfDigits(digits, tail);
    assert x[1..] == digits + tail;
  }

  /** Digits, and whatever non-digit text follows, read back as their value;
      with ParseIntAfterSpaces, so do digits after white space. */
  lemma ParseIntOfDigits(digits: string, tail: string, v: nat)
    requires IsAllDigits(digits) && DigitsValue(digits) == v
    requires tail == [] || (!IsDigit(tail[0]) && tail[0] != 'x' && tail[0] != 'X')
    ensures ParseInt(digits + tail) == Some(v)
  {
    var x := digits + tail;
    assert x[0] == digits[0];
    SignedOfDigits(x, digits, tail);
    ParseIntOfUnspaced(x, Some(v));
  }

  /** With a minus sign in front of the digits, the value is negated. */
  lemma ParseIntOfNegativeDigits(digits: string, tail: string, v: nat)
    requires IsAllDigits(digits) && DigitsValue(digits) == v
    requires tail == [] || (!IsDigit(tail[0]) && tail[0] != 'x' && tail[0] != 'X')
    ensures ParseInt("-" + (digits + tail)) == Some(-(v as int))
  {
    var x := "-" + (digits + tail);
    SignedOfNegativeDigits(x, digits, tail);
    ParseIntOfUnspaced(x, Some(-(v as int)));
  }

  /** A number written in decimal reads back as that number. */
  lemma ParseIntOfNumeral(n: nat, tail: string)
    requires tail == [] || (!IsDigit(tail[0]) && tail[0] != 'x' && tail[0] != 'X')
    ensures ParseInt(NatToString(n) + tail) == Some(n)
  {
    NatToStringRoundTrip(n);
    ParseIntOfDigits(NatToString(n), tail, n);
  }

  /** And with a minus sign, as its negation. */
  lemma ParseIntOfNegativeNumeral(n: nat, tail: string)
    requires tail == [] || (!IsDigit(tail[0]) && tail[0] != 'x' && tail[0] != 'X')
    ensures ParseInt("-" + (NatToString(n) + tail)) == Some(-(n as int))
  {
    NatToStringRoundTrip(n);
    ParseIntOfNegativeDigits(NatToString(n), tail, n);
  }

  /** Text that starts with something other than white space, a sign or a digit
      is not a number. */
  lemma ParseIntOfWord(s: string)
    requires s != [] && !IsSpace(s[0]) && !IsDigit(s[0]) && s[0] != '-' && s[0] != '+'
    ensures ParseInt(s) == None
  {
    assert TrimStart(s) == s;
  }

  /** The limit form: the text must parse to a number in 0..99, checked before the
      guards; then the limit is stored once the platform set it (`ok`), 0 meaning
      no limit. */
  method LimitForm(vm: Settings?, channel: Option<string>, caller: string, input: string, ok: bool)
    returns (r: Reply)
    modifies vm
    ensures var limit := ParseInt(input);
      var refusal := old(RegisteredOwnerGate(Classify(vm, channel, caller)));
      r == (if limit.None? || !ValidLimit(limit.value) then InvalidLimit
            else if refusal.Some? then refusal.value
            else if !ok then Failed
            else if limit.value == 0 then NoLimit
            else Done)
    ensures r in {Done, NoLimit} ==>
              vm.channels == old(vm.channels)[channel.value :=
                               old(vm.channels)[channel.value].(userLimit := ParseInt(input).value)]
    ensures vm != null && r !in {Done, NoLimit} ==> vm.channels == old(vm.channels)
    ensures vm != null ==> vm.enabled == old(vm.enabled) && vm.categoryId == old(vm.categoryId) &&
                           vm.createChannelId == old(vm.createChannelId)
    ensures vm != null && old(vm.Valid()) ==> vm.Valid()
  {
    var limit := ParseInt(input);
    if limit.None? || !ValidLimit(limit.value) {
      return InvalidLimit;
    }
    var refusal := RegisteredOwnerGate(Classify(vm, channel, caller));
    if refusal.Some? {
      return refusal.value;
    }
    if !ok {
      return Failed;
    }
    var c := vm.channels[channel.value];
    vm.channels := vm.channels[channel.value := c.(userLimit := limit.value)];
    return if limit.value == 0 then NoLimit else Done;
  }

  /** Digits alone read back as their value. */
  lemma DigitsParse(d: string, v: nat)
    requires IsAllDigits(d) && DigitsValue(d) == v
    ensures ParseInt(d) == Some(v)
  {
    assert d == d + [];
    TrimStartAfterSpaces(d, [], d);
    SignedOfDigits(d, d, []);
    ParseIntFromTrimmed(d, d);
  }

  /** Every limit 0..99 typed as its digits gets past the form's validation. */
  lemma LimitFormAcceptsNumerals(n: nat)
    requires ValidLimit(n)
    ensures ParseInt(NatToString(n)) == Some(n)
  {
    NatToStringRoundTrip(n);
    DigitsParse(NatToString(n), n);
  }

  // ---------------------------------------------------------------------
  // Music dashboard buttons
  // ---------------------------------------------------------------------

  datatype MusicControl =
    | Previous | PlayPause | Skip | Stop | VolumeDown | VolumeUp | Loop | Shuffle | ShowQueue | Lyrics
    | NowPlaying

  /** The button ids of the dashboard. */
  function MusicControlOf(customId: string): (c: Option<MusicControl>)
    ensures c == Some(Previous) <==> customId == "music_previous"
    ensures c == Some(PlayPause) <==> customId == "music_playpause"
    ensures c == Some(Skip) <==> customId == "music_skip"
    ensures c == Some(Stop) <==> customId == "music_stop"
    ensures c == Some(VolumeDown) <==> customId == "music_volume_down"
    ensures c == Some(VolumeUp) <==> customId == "music_volume_up"
    ensures c == Some(Loop) <==> customId == "music_loop"
    ensures c == Some(Shuffle) <==> customId == "music_shuffle"
    ensures c == Some(ShowQueue) <==> customId == "music_queue"
    ensures c == Some(Lyrics) <==> customId == "music_lyrics"
    ensures c == Some(NowPlaying) <==> customId == "music_nowplaying"
  {
    if customId == "music_previous" then Some(Previous)
    else if customId == "music_playpause" then Some(PlayPause)
    else if customId == "music_skip" then Some(Skip)
    else if customId == "music_stop" then Some(Stop)
    else if customId == "music_volume_down" then Some(VolumeDown)
    else if customId == "music_volume_up" then Some(VolumeUp)
    else if customId == "music_loop" then Some(Loop)
    else if customId == "music_shuffle" then Some(Shuffle)
    else if customId == "music_queue" then Some(ShowQueue)
    else if customId == "music_lyrics" then Some(Lyrics)
    else if customId == "music_nowplaying" then Some(NowPlaying)
    else None
  }

  datatype MusicReply =
    | NoPlayback                       // no queue for the guild
    | Toggled(on: bool)                // play/pause and loop: the new value of the flag
    | Skipped
    | Stopped
    | VolumeSet(volume: int)
    | VolumeAtBound                    // already at 0 (down) or 100 (up)
    | Shuffled
    | QueueEmpty
    | QueueView(shown: seq<Music.Song>, more: nat)
    | NothingPlaying
    | PlayingNow(song: Music.Song)
    | NotImplemented
    | Ignored                          // an id the dashboard does not have

  /** A button whose id starts with "music_" pressed in `guild`; `control` is None
      for such an id outside the dashboard's eleven. Without a queue every id but the
      queue view is refused; skipping only tells the player to move on. */
  method MusicButton(qs: Music.Queues, guild: string, control: Option<MusicControl>, js: seq<int>)
    returns (r: MusicReply)
    requires guild in qs.queues && qs.queues[guild].songs != [] ==> Music.Draws(js, |qs.queues[guild].songs| - 1)
    modifies qs, if guild in qs.queues then {qs.queues[guild]} else {}
    ensures guild !in old(qs.queues) ==>
              r == (if control == Some(ShowQueue) then QueueEmpty else NoPlayback) &&
              qs.queues == old(qs.queues)
    ensures guild in old(qs.queues) && control != Some(Stop) ==> qs.queues == old(qs.queues)
    ensures guild in old(qs.queues) && control == Some(Stop) ==>
              r == Stopped && qs.queues == old(qs.queues) - {guild} && old(qs.queues)[guild].songs == []
    ensures guild in old(qs.queues) ==>
              var q := old(qs.queues)[guild];
              && (control == Some(PlayPause) ==> q.playing == !old(q.playing) && r == Toggled(q.playing))
              && (control == Some(Loop) ==> q.loop == !old(q.loop) && r == Toggled(q.loop))
              && (control == Some(VolumeDown) ==>
                    q.volume == (if old(q.volume) > 0 then Max(0, old(q.volume) - Music.VolumeStep) else old(q.volume)) &&
                    r == (if old(q.volume) > 0 then VolumeSet(q.volume) else VolumeAtBound))
              && (control == Some(VolumeUp) ==>
                    q.volume == (if old(q.volume) < Music.MaxVolume then Min(Music.MaxVolume, old(q.volume) + Music.VolumeStep)
                                 else old(q.volume)) &&
                    r == (if old(q.volume) < Music.MaxVolume then VolumeSet(q.volume) else VolumeAtBound))
              && (control == Some(Shuffle) ==> r == Shuffled)
              && (control == Some(Shuffle) && old(q.songs) == [] ==> q.songs == [])
              && (control == Some(Shuffle) && old(q.songs) != [] ==>
                    && q.songs == [old(q.songs)[0]] + Music.Shuffled(old(q.songs)[1..], js, |old(q.songs)| - 1)
                    && |q.songs| == |old(q.songs)| && q.songs[0] == old(q.songs)[0]
                    && multiset(q.songs[1..]) == multiset(old(q.songs)[1..]))
              && (control == Some(ShowQueue) ==>
                    r == (if q.songs == [] then QueueEmpty
                          else QueueView(Music.DashboardQueue(q.songs).0, Music.DashboardQueue(q.songs).1)))
              && (control.None? ==> r == Ignored && unchanged(q))
              && (control == Some(Skip) ==> r == Skipped)
              && (control in {Some(Previous), Some(Lyrics)} ==> r == NotImplemented)
              && (control == Some(NowPlaying) ==>
                    r == (if q.songs == [] then NothingPlaying else PlayingNow(q.songs[0])))
              // each field is written only by the buttons that own it
              && (control != Some(PlayPause) ==> q.playing == old(q.playing))
              && (control != Some(Loop) ==> q.loop == old(q.loop))
              && (control !in {Some(VolumeDown), Some(VolumeUp)} ==> q.volume == old(q.volume))
              && (control !in {Some(Shuffle), Some(Stop)} ==> q.songs == old(q.songs))
              && (old(q.Valid()) ==> q.Valid())
  {
    if guild !in qs.queues {
      if control == Some(ShowQueue) {
        return QueueEmpty;
      }
      return NoPlayback;
    }
    var q := qs.queues[guild];
    if control.None? {
      return Ignored;
    }
    match control.value {
      case Previous => r := NotImplemented;
      case PlayPause =>
        q.PlayPause();
        r := Toggled(q.playing);
      case Skip => r := Skipped;
      case Stop =>
        qs.Stop(guild);
        r := Stopped;
      case VolumeDown =>
        var changed := q.VolumeDown();
        r := if changed then VolumeSet(q.volume) else VolumeAtBound;
      case VolumeUp =>
        var changed := q.VolumeUp();
        r := if changed then VolumeSet(q.volume) else VolumeAtBound;
      case Loop =>
        q.ToggleLoop();
        r := Toggled(q.loop);
      case Shuffle =>
        q.Shuffle(js);
        r := Shuffled;
      case ShowQueue =>
        if q.songs == [] {
          r := QueueEmpty;
        } else {
          var view := Music.DashboardQueue(q.songs);
          r := QueueView(view.0, view.1);
        }
      case Lyrics => r := NotImplemented;
      case NowPlaying =>
        r := if q.songs == [] then NothingPlaying else PlayingNow(q.songs[0]);
    }
  }

  // ---------------------------------------------------------------------
  // Role-menu select
  // ---------------------------------------------------------------------

  const MenuPrefix: string := "rolemenu_"

  /** The menu a select belongs to: its id with the first "rolemenu_" removed. */
  function SelectMenuId(customId: string): string
  {
    ReplaceFirst(customId, MenuPrefix, "")
  }

  /** The select menu that rolemenu builds is routed back to its own menu. */
  lemma SelectReachesItsMenu(menuId: string, roles: seq<RoleMenus.MenuRole>, allowMultiple: bool)
    ensures SelectMenuId(RoleMenus.BuildSelect(menuId, roles, allowMultiple).customId) == menuId
  {
    ReplaceFirstPrefix(MenuPrefix, menuId);
  }

  /** `menu.roles.map(r => r.id)`. */
  function RoleIds(roles: seq<RoleMenus.MenuRole>): (ids: seq<string>)
    ensures |ids| == |roles|
    ensures forall k :: 0 <= k < |roles| ==> ids[k] == roles[k].id
  {
    seq(|roles|, k requires 0 <= k < |roles| => roles[k].id)
  }

  datatype SelectReply = NoMenus | MenuGone | RolesUpdated

  /** The roles a member ends with after the platform carries out the removals and
      then the additions. */
  function AfterSelect(held: set<string>, removed: seq<string>, added: seq<string>): set<string>
  {
    (held - set x | x in removed) + (set x | x in added)
  }

  /** A choice in a role menu. Both loops judge membership on the roles the member
      held when the choice was made: in a single-choice menu every menu role held
      but not chosen is removed, then every chosen role not held is added.
      `removed` and `added` are the role calls made, in order. */
  method RoleMenuSelect(menus: RoleMenus.Registry?, menuId: string, selected: seq<string>, held: set<string>)
    returns (r: SelectReply, removed: seq<string>, added: seq<string>)
    ensures menus == null ==> r == NoMenus && removed == [] && added == []
    ensures menus != null && FindIndex(menus.menus, m => RoleMenus.HasMenuId(menuId, m)) == -1 ==>
              r == MenuGone && removed == [] && added == []
    ensures menus != null && FindIndex(menus.menus, m => RoleMenus.HasMenuId(menuId, m)) != -1 ==>
              var menu := menus.menus[FindIndex(menus.menus, m => RoleMenus.HasMenuId(menuId, m))];
              && r == RolesUpdated
              && removed == (if menu.allowMultiple then []
                             else Filter(RoleIds(menu.roles), id => id !in selected && id in held))
              && added == Filter(selected, id => id !in held)
  {
    removed, added := [], [];
    if menus == null {
      return NoMenus, removed, added;
    }
    var i := FindIndex(menus.menus, m => RoleMenus.HasMenuId(menuId, m));
    if i == -1 {
      return MenuGone, removed, added;
    }
    var menu := menus.menus[i];
    var ids := RoleIds(menu.roles);
    if !menu.allowMultiple {
      for k := 0 to |ids|
        invariant removed == Filter(ids[..k], id => id !in selected && id in held)
      {
        FilterAppend(ids[..k], ids[k], id => id !in selected && id in held);
        assert ids[..k + 1] == ids[..k] + [ids[k]];
        if ids[k] !in selected && ids[k] in held {
          removed := removed + [ids[k]];
        }
      }
      assert ids[..|ids|] == ids;
    }
    for k := 0 to |selected|
      invariant added == Filter(selected[..k], id => id !in held)
    {
      FilterAppend(selected[..k], selected[k], id => id !in held);
      assert selected[..k + 1] == selected[..k] + [selected[k]];
      if selected[k] !in held {
        added := added + [selected[k]];
      }
    }
    assert selected[..|selected|] == selected;
    return RolesUpdated, removed, added;
  }

  /** After a choice in a single-choice menu, the member holds exactly the chosen
      roles among the menu's roles, and keeps every role outside the menu. */
  lemma SingleChoiceOutcome(menu: RoleMenus.Menu, selected: seq<string>, held: set<string>)
    requires !menu.allowMultiple
    ensures var after := AfterSelect(held, Filter(RoleIds(menu.roles), id => id !in selected && id in held),
                                     Filter(selected, id => id !in held));
      && (forall k :: 0 <= k < |menu.roles| ==> (menu.roles[k].id in after <==> menu.roles[k].id in selected))
      && (forall x :: x in held && x !in RoleIds(menu.roles) ==> x in after)
      && (forall x :: x in selected ==> x in after)
  {
    var ids := RoleIds(menu.roles);
    var removed := Filter(ids, id => id !in selected && id in held);
    var added := Filter(selected, id => id !in held);
    var after := AfterSelect(held, removed, added);
    forall k | 0 <= k < |menu.roles| ensures menu.roles[k].id in after <==> menu.roles[k].id in selected {
      var x := ids[k];
      if x in selected {
        if x !in held {
          assert selected[IndexOf(selected, x)] == x;
          assert x in added;
        }
      } else if x in held {
        assert x in removed;
      }
    }
    forall x | x in selected ensures x in after {
      if x !in held {
        assert selected[IndexOf(selected, x)] == x;
        assert x in added;
      }
    }
  }

  /** In a multiple-choice menu nothing is taken away: the member ends with their
      roles plus the chosen ones. */
  lemma MultipleChoiceOutcome(selected: seq<string>, held: set<string>)
    ensures AfterSelect(held, [], Filter(selected, id => id !in held)) == held + set x | x in selected
  {
    var added := Filter(selected, id => id !in held);
    forall x | x in selected && x !in held ensures x in added {
      assert selected[IndexOf(selected, x)] == x;
    }
  }
}
