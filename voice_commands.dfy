/** The Voice Master commands: `/voicemaster setup` and `/voicemaster disable`
    (commands/voice/setup.js), and the owner commands lock, unlock, limit, name,
    region, claim and permissions (the files under commands/voice). Each owner command works
    on the registry entry of the caller's current voice channel; `ok` is whether the
    platform accepted the change, and a refused change leaves the registry as it was. */
module VoiceCommands {
  import opened Common
  import opened VoiceMaster
  import Database

  /** `/voicemaster setup`: the section is created when missing; the registry is kept. */
  method Setup(g: Database.Guild, category: string, createChannel: string) returns (vm: Settings)
    modifies g`voiceMaster, g.voiceMaster
    ensures vm == g.voiceMaster
    ensures vm.enabled && vm.categoryId == Some(category) && vm.createChannelId == Some(createChannel)
    ensures old(g.voiceMaster) != null ==> vm == old(g.voiceMaster) && vm.channels == old(g.voiceMaster.channels)
    ensures old(g.voiceMaster) == null ==> fresh(vm) && vm.channels == map[]
    ensures old(g.voiceMaster) != null && old(g.voiceMaster.Valid()) ==> vm.Valid()
    ensures old(g.voiceMaster) == null ==> vm.Valid()
  {
    vm := g.EnsureVoiceMaster();
    vm.Setup(category, createChannel);
  }

  /** `/voicemaster disable`: refused when the section was never set up. */
  method Disable(g: Database.Guild) returns (r: Reply)
    modifies g.voiceMaster
    ensures r == (if g.voiceMaster == null then NotSetUp else Done)
    ensures g.voiceMaster != null ==> !g.voiceMaster.enabled && g.voiceMaster.channels == old(g.voiceMaster.channels)
    ensures g.voiceMaster != null ==> g.voiceMaster.categoryId == old(g.voiceMaster.categoryId) &&
                                      g.voiceMaster.createChannelId == old(g.voiceMaster.createChannelId)
  {
    if g.voiceMaster == null {
      return NotSetUp;
    }
    g.voiceMaster.Disable();
    return Done;
  }

  /** The refusal of an owner command for this caller, if any. */
  function OwnerRefusal(vm: Settings?, channel: Option<string>, caller: string): (r: Option<Reply>)
    reads vm
    ensures r.None? <==> channel.Some? && vm != null && vm.enabled && channel.value in vm.channels &&
                         vm.channels[channel.value].ownerId == caller
  {
    OwnerGate(Classify(vm, channel, caller))
  }

  /** `/lock` (`locked` true) and `/unlock` (`locked` false). */
  method SetLocked(vm: Settings?, channel: Option<string>, caller: string, locked: bool, ok: bool)
    returns (r: Reply)
    modifies vm
    ensures var refusal := old(OwnerRefusal(vm, channel, caller));
      r == (if refusal.Some? then refusal.value else if ok then Done else Failed)
    ensures r == Done ==>
              vm.channels == old(vm.channels)[channel.value := old(vm.channels)[channel.value].(locked := locked)]
    ensures vm != null && r != Done ==> vm.channels == old(vm.channels)
    ensures vm != null ==> vm.enabled == old(vm.enabled) && vm.categoryId == old(vm.categoryId) &&
                           vm.createChannelId == old(vm.createChannelId)
    ensures vm != null && old(vm.Valid()) ==> vm.Valid()
  {
    var refusal := OwnerRefusal(vm, channel, caller);
    if refusal.Some? {
      return refusal.value;
    }
    if !ok {
      return Failed;
    }
    var c := vm.channels[channel.value];
    vm.channels := vm.channels[channel.value := c.(locked := locked)];
    return Done;
  }

  /** `/limit`: the option only admits 0..99; 0 is reported as "no user limit". */
  method Limit(vm: Settings?, channel: Option<string>, caller: string, amount: int, ok: bool)
    returns (r: Reply)
    requires ValidLimit(amount)
    modifies vm
    ensures var refusal := old(OwnerRefusal(vm, channel, caller));
      r == (if refusal.Some? then refusal.value else if !ok then Failed else if amount == 0 then NoLimit else Done)
    ensures r in {Done, NoLimit} ==>
              vm.channels == old(vm.channels)[channel.value := old(vm.channels)[channel.value].(userLimit := amount)]
    ensures vm != null && r !in {Done, NoLimit} ==> vm.channels == old(vm.channels)
    ensures vm != null ==> vm.enabled == old(vm.enabled) && vm.categoryId == old(vm.categoryId) &&
                           vm.createChannelId == old(vm.createChannelId)
    ensures vm != null && old(vm.Valid()) ==> vm.Valid()
  {
    var refusal := OwnerRefusal(vm, channel, caller);
    if refusal.Some? {
      return refusal.value;
    }
    if !ok {
      return Failed;
    }
    var c := vm.channels[channel.value];
    vm.channels := vm.channels[channel.value := c.(userLimit := amount)];
    return if amount == 0 then NoLimit else Done;
  }

  /** The longest channel name `/rename` accepts. */
  const MaxNameLength := 100

  /** `/rename`: a name over 100 UTF-16 code units is refused before the rename is tried. */
  method Rename(vm: Settings?, channel: Option<string>, caller: string, newName: string, ok: bool)
    returns (r: Reply)
    modifies vm
    ensures var refusal := old(OwnerRefusal(vm, channel, caller));
      r == (if refusal.Some? then refusal.value
            else if JsLength(newName) > MaxNameLength then NameTooLong
            else if !ok then Failed
            else Done)
    ensures r == Done ==>
              vm.channels == old(vm.channels)[channel.value := old(vm.channels)[channel.value].(name := newName)]
    ensures r == Done ==> JsLength(vm.channels[channel.value].name) <= MaxNameLength
    ensures vm != null && r != Done ==> vm.channels == old(vm.channels)
    ensures vm != null ==> vm.enabled == old(vm.enabled) && vm.categoryId == old(vm.categoryId) &&
                           vm.createChannelId == old(vm.createChannelId)
    ensures vm != null && old(vm.Valid()) ==> vm.Valid()
  {
    var refusal := OwnerRefusal(vm, channel, caller);
    if refusal.Some? {
      return refusal.value;
    }
    if JsLength(newName) > MaxNameLength {
      return NameTooLong;
    }
    if !ok {
      return Failed;
    }
    var c := vm.channels[channel.value];
    vm.channels := vm.channels[channel.value := c.(name := newName)];
    return Done;
  }

  /** The region handed to the platform: "auto" means automatic selection. */
  function PlatformRegion(choice: string): (r: Option<string>)
    ensures r.None? <==> choice == "auto"
    ensures r.Some? ==> r.value == choice
  {
    if choice == "auto" then None else Some(choice)
  }

  /** `/region`: the platform gets PlatformRegion(choice) and the registry the raw choice. */
  method SetRegion(vm: Settings?, channel: Option<string>, caller: string, choice: string, ok: bool)
    returns (r: Reply, sent: Option<string>)
    modifies vm
    ensures var refusal := old(RegisteredOwnerGate(Classify(vm, channel, caller)));
      r == (if refusal.Some? then refusal.value else if ok then Done else Failed)
    ensures r in {Done, Failed} ==> sent == PlatformRegion(choice)
    ensures r == Done ==>
              vm.channels == old(vm.channels)[channel.value := old(vm.channels)[channel.value].(region := Some(choice))]
    ensures vm != null && r != Done ==> vm.channels == old(vm.channels)
    ensures vm != null ==> vm.enabled == old(vm.enabled) && vm.categoryId == old(vm.categoryId) &&
                           vm.createChannelId == old(vm.createChannelId)
    ensures vm != null && old(vm.Valid()) ==> vm.Valid()
  {
    sent := None;
    var refusal := RegisteredOwnerGate(Classify(vm, channel, caller));
    if refusal.Some? {
      return refusal.value, sent;
    }
    sent := PlatformRegion(choice);
    if !ok {
      return Failed, sent;
    }
    var c := vm.channels[channel.value];
    vm.channels := vm.channels[channel.value := c.(region := Some(choice))];
    return Done, sent;
  }

  /** `/claim`: an unowned channel (its owner has left, `ownerPresent` false) goes
      to the caller, and only its owner changes. */
  method Claim(vm: Settings?, channel: Option<string>, caller: string, ownerPresent: bool)
    returns (r: Reply)
    modifies vm
    ensures var a := old(Classify(vm, channel, caller));
      r == (match a
            case NoVoiceChannel => NotInVoice
            case SystemDisabled => NotEnabled
            case Unregistered => NotVoiceMasterChannel
            case OwnedByCaller => AlreadyOwner
            case OwnedByOther(_) => if ownerPresent then OwnerPresent else Done)
    ensures r == Done ==>
              vm.channels == old(vm.channels)[channel.value := old(vm.channels)[channel.value].(ownerId := caller)]
    ensures r == Done ==> Classify(vm, channel, caller) == OwnedByCaller
    ensures vm != null && r != Done ==> vm.channels == old(vm.channels)
    ensures vm != null ==> vm.enabled == old(vm.enabled) && vm.categoryId == old(vm.categoryId) &&
                           vm.createChannelId == old(vm.createChannelId)
    ensures vm != null && old(vm.Valid()) ==> vm.Valid()
  {
    var a := Classify(vm, channel, caller);
    match a {
      case NoVoiceChannel => return NotInVoice;
      case SystemDisabled => return NotEnabled;
      case Unregistered => return NotVoiceMasterChannel;
      case OwnedByCaller => return AlreadyOwner;
      case OwnedByOther(_) =>
        if ownerPresent {
          return OwnerPresent;
        }
        var c := vm.channels[channel.value];
        vm.channels := vm.channels[channel.value := c.(ownerId := caller)];
        return Done;
    }
  }

  /** The three `/permissions` subcommands. */
  datatype PermissionAction = Allow | Deny | Reset

  /** The overwrite applied to the target member: one permission set to true or
      false, or None when all of the member's overwrites are deleted. */
  function Overwrite(action: PermissionAction, permission: string): (o: Option<map<string, bool>>)
    ensures action == Reset <==> o.None?
    ensures o.Some? ==> o.value.Keys == {permission} && o.value[permission] == (action == Allow)
  {
    match action
    case Allow => Some(map[permission := true])
    case Deny => Some(map[permission := false])
    case Reset => None
  }

  /** The guard chain of `/permissions`, ending with the target member lookup. */
  function PermissionsCheck(vm: Settings?, channel: Option<string>, caller: string, memberFound: bool): (r: Reply)
    reads vm
    ensures r == Done <==> Classify(vm, channel, caller) == OwnedByCaller && memberFound
    ensures Classify(vm, channel, caller) == OwnedByCaller && !memberFound ==> r == MemberMissing
    ensures Classify(vm, channel, caller) != OwnedByCaller ==>
              Some(r) == RegisteredOwnerGate(Classify(vm, channel, caller))
  {
    var refusal := RegisteredOwnerGate(Classify(vm, channel, caller));
    if refusal.Some? then refusal.value
    else if !memberFound then MemberMissing
    else Done
  }

  /** `replace(/([A-Z])/g, " $1")`: a space before every capital letter. */
  function SpaceCapitals(s: string): (r: string)
    ensures |r| >= |s|
  {
    if |s| == 0 then ""
    else (if IsUpper(s[0]) then [' ', s[0]] else [s[0]]) + SpaceCapitals(s[1..])
  }

  /** The text in a permissions reply: spaced capitals, lower-cased, trimmed. */
  function PermissionLabel(permission: string): (text: string)
    ensures IsLowerCase(text)
    ensures Unspaced(text) == ToLower(Unspaced(permission))
  {
    var lowered := ToLower(SpaceCapitals(permission));
    var text := Trim(lowered);
    TrimSlice(lowered);
    UnspacedTrim(lowered);
    UnspacedToLower(SpaceCapitals(permission));
    UnspacedSpaceCapitals(permission);
    text
  }

  /** The characters of `s` that are not whitespace, in order. */
  function Unspaced(s: string): string
  {
    if |s| == 0 then "" else (if IsSpace(s[0]) then "" else [s[0]]) + Unspaced(s[1..])
  }

  lemma {:induction false} UnspacedAppend(a: string, b: string)
    ensures Unspaced(a + b) == Unspaced(a) + Unspaced(b)
  {
    if |a| == 0 {
      assert a + b == b;
    } else {
      assert (a + b)[0] == a[0];
      assert (a + b)[1..] == a[1..] + b;
      UnspacedAppend(a[1..], b);
    }
  }

  lemma {:induction false} UnspacedOfSpaces(s: string)
    requires forall i :: 0 <= i < |s| ==> IsSpace(s[i])
    ensures Unspaced(s) == ""
  {
    if |s| > 0 {
      UnspacedOfSpaces(s[1..]);
    }
  }

  lemma UnspacedTrimStart(s: string)
    ensures Unspaced(TrimStart(s)) == Unspaced(s)
  {
    var t := TrimStart(s);
    var n := |s| - |t|;
    var lead := s[..n];
    assert t == s[n..];
    assert s == lead + t;
    forall i | 0 <= i < |lead|
      ensures IsSpace(lead[i])
    {
      assert lead[i] == s[i];
    }
    UnspacedOfSpaces(lead);
    assert Unspaced(lead) == "";
    UnspacedAppend(lead, t);
    assert Unspaced(s) == Unspaced(lead) + Unspaced(t);
  }

  lemma UnspacedTrimEnd(s: string)
    ensures Unspaced(TrimEnd(s)) == Unspaced(s)
  {
    var t := TrimEnd(s);
    var trail := s[|t|..];
    assert t == s[..|t|];
    assert s == t + trail;
    forall i | 0 <= i < |trail|
      ensures IsSpace(trail[i])
    {
      assert trail[i] == s[|t| + i];
    }
    UnspacedOfSpaces(trail);
    assert Unspaced(trail) == "";
    UnspacedAppend(t, trail);
    assert Unspaced(s) == Unspaced(t) + Unspaced(trail);
  }

  /** Trimming removes only whitespace. */
  lemma UnspacedTrim(s: string)
    ensures Unspaced(Trim(s)) == Unspaced(s)
  {
    UnspacedTrimStart(s);
    UnspacedTrimEnd(TrimStart(s));
  }

  lemma LowerSlice(s: string, i: nat, j: nat)
    requires IsLowerCase(s) && i <= j <= |s|
    ensures IsLowerCase(s[i..j])
  {
    forall k | 0 <= k < j - i
      ensures !IsUpper(s[i..j][k])
    {
      assert s[i..j][k] == s[i + k];
    }
  }

  /** The trimmed string is a slice of the original, so it keeps its case. */
  lemma TrimSlice(s: string)
    requires IsLowerCase(s)
    ensures IsLowerCase(Trim(s))
  {
    var t := TrimStart(s);
    LowerSlice(s, |s| - |t|, |s|);
    LowerSlice(t, 0, |TrimEnd(t)|);
  }

  /** Lower-casing neither adds nor removes whitespace. */
  lemma {:induction false} UnspacedToLower(s: string)
    ensures Unspaced(ToLower(s)) == ToLower(Unspaced(s))
  {
    if |s| > 0 {
      assert ToLower(s)[1..] == ToLower(s[1..]);
      UnspacedToLower(s[1..]);
      var head := if IsSpace(s[0]) then "" else [s[0]];
      assert ToLower(head + Unspaced(s[1..])) == ToLower(head) + ToLower(Unspaced(s[1..]));
    }
  }

  /** The inserted separators are spaces and nothing else changes. */
  lemma {:induction false} UnspacedSpaceCapitals(s: string)
    ensures Unspaced(SpaceCapitals(s)) == Unspaced(s)
  {
    if |s| > 0 {
      var head := if IsUpper(s[0]) then [' ', s[0]] else [s[0]];
      UnspacedAppend(head, SpaceCapitals(s[1..]));
      UnspacedSpaceCapitals(s[1..]);
      if IsUpper(s[0]) {
        assert [' ', s[0]][1..] == [s[0]];
      }
    }
  }

  lemma {:induction false} SpaceCapitalsAppend(a: string, b: string)
    ensures SpaceCapitals(a + b) == SpaceCapitals(a) + SpaceCapitals(b)
  {
    if |a| == 0 {
      assert a + b == b;
    } else {
      assert (a + b)[0] == a[0];
      assert (a + b)[1..] == a[1..] + b;
      SpaceCapitalsAppend(a[1..], b);
    }
  }

  lemma {:induction false} SpaceCapitalsOfLower(s: string)
    requires IsLowerCase(s)
    ensures SpaceCapitals(s) == s
  {
    if |s| > 0 {
      SpaceCapitalsOfLower(s[1..]);
    }
  }

  /** A capitalised word gets exactly one leading space. */
  lemma SpaceCapitalsOfWord(w: string)
    requires |w| > 0 && IsUpper(w[0]) && IsLowerCase(w[1..])
    ensures SpaceCapitals(w) == [' '] + w
  {
    SpaceCapitalsOfLower(w[1..]);
    assert [' ', w[0]] + w[1..] == [' '] + w;
  }

  /** Two capitalised words are separated, and led, by one space each. */
  lemma SpaceCapitalsOfTwoWords(p: string, q: string)
    requires |p| > 0 && IsUpper(p[0]) && IsLowerCase(p[1..])
    requires |q| > 0 && IsUpper(q[0]) && IsLowerCase(q[1..])
    ensures SpaceCapitals(p + q) == [' '] + p + [' '] + q
  {
    SpaceCapitalsOfWord(p);
    SpaceCapitalsOfWord(q);
    SpaceCapitalsAppend(p, q);
  }

  lemma PrioritySpeakerSpaced(p: string, q: string)
    requires p == "Priority" && q == "Speaker"
    ensures SpaceCapitals(p + q) == " Priority Speaker"
  {
    assert p[1..] == "riority";
    assert q[1..] == "peaker";
    SpaceCapitalsOfTwoWords(p, q);
  }

  lemma PrioritySpeakerLowered()
    ensures ToLower(" Priority Speaker") == " priority speaker"
  {
  }

  lemma PrioritySpeakerTrimmed()
    ensures Trim(" priority speaker") == "priority speaker"
  {
    var t := "priority speaker";
    assert " priority speaker" == [' '] + t;
    TrimOfLeadingSpace(' ', t);
  }

  /** The example from the option list: "PrioritySpeaker" reads "priority speaker". */
  lemma PrioritySpeakerLabel()
    ensures PermissionLabel("PrioritySpeaker") == "priority speaker"
  {
    PrioritySpeakerSpaced("Priority", "Speaker");
    assert "Priority" + "Speaker" == "PrioritySpeaker";
    PrioritySpeakerLowered();
    PrioritySpeakerTrimmed();
  }
}
