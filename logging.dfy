/** The logging section of a guild record and the `/logging` subcommands
    (commands/logging/logging.js). */
module Logging {
  import opened Common

  datatype Event = MessageEvents | MemberEvents | ChannelEvents | RoleEvents | ServerEvents | VoiceEvents

  const AllEvents: set<Event> := {MessageEvents, MemberEvents, ChannelEvents, RoleEvents, ServerEvents, VoiceEvents}

  lemma EveryEventListed(e: Event)
    ensures e in AllEvents
  {
    match e
    case MessageEvents =>
    case MemberEvents =>
    case ChannelEvents =>
    case RoleEvents =>
    case ServerEvents =>
    case VoiceEvents =>
  }

  /** The event option: one event group or "all". */
  datatype Choice = All | One(event: Event)

  datatype Target = ChannelTarget | RoleTarget

  datatype Reply =
    | Done
    | NotSetUp       // enable before a log channel was chosen
    | InvalidId      // the id is not all digits
    | NotFound       // no channel / role with that id
    | NotIgnored     // unignore of an id that is not listed

  class Settings {
    var enabled: bool
    var channelId: Option<string>
    var events: map<Event, bool>
    var ignoredChannels: seq<string>
    var ignoredRoles: seq<string>

    /** The six event flags are present and the ignore lists hold distinct digit strings. */
    ghost predicate Valid()
      reads this
    {
      && events.Keys == AllEvents
      && NoDups(ignoredChannels) && NoDups(ignoredRoles)
      && (forall i :: 0 <= i < |ignoredChannels| ==> IsAllDigits(ignoredChannels[i]))
      && (forall i :: 0 <= i < |ignoredRoles| ==> IsAllDigits(ignoredRoles[i]))
    }

    predicate AnyEventOn()
      reads this
    {
      exists e :: e in events && events[e]
    }

    /** Whether `channelId` is truthy. */
    predicate HasChannel()
      reads this
    {
      channelId.Some? && channelId.value != ""
    }

    /** The state a freshly created section is in. */
    ghost predicate Initial()
      reads this
    {
      && !enabled && channelId == None && ignoredChannels == [] && ignoredRoles == []
      && (events.Keys == AllEvents && forall e :: e in events ==> !events[e])
    }

    constructor ()
      ensures Initial() && Valid()
    {
      enabled := false;
      channelId := None;
      events := map[MessageEvents := false, MemberEvents := false, ChannelEvents := false,
                    RoleEvents := false, ServerEvents := false, VoiceEvents := false];
      ignoredChannels := [];
      ignoredRoles := [];
    }

    method Setup(channel: string)
      modifies this`enabled, this`channelId
      ensures enabled && channelId == Some(channel)
    {
      enabled := true;
      channelId := Some(channel);
    }

    /** `Object.keys(events).forEach(key => events[key] = value)`. */
    method SetEveryEvent(value: bool)
      modifies this`events
      ensures events.Keys == old(events.Keys)
      ensures forall e :: e in events ==> events[e] == value
    {
      var pending := events.Keys;
      while pending != {}
        invariant pending <= events.Keys == old(events.Keys)
        invariant forall e :: e in events && e !in pending ==> events[e] == value
        decreases pending
      {
        var e :| e in pending;
        events := events[e := value];
        pending := pending - {e};
      }
    }

    /** Enabling needs a log channel; then the chosen events and the master flag go on. */
    method Enable(choice: Choice) returns (r: Reply)
      modifies this`enabled, this`events
      ensures r == (if old(HasChannel()) then Done else NotSetUp)
      ensures r == NotSetUp ==> enabled == old(enabled) && events == old(events)
      ensures r == Done ==> enabled
      ensures r == Done && choice == All ==>
                events.Keys == old(events.Keys) && forall e :: e in events ==> events[e]
      ensures r == Done && choice.One? ==> events == old(events)[choice.event := true]
      ensures old(Valid()) ==> Valid()
    {
      if !HasChannel() {
        return NotSetUp;
      }
      if choice == All {
        SetEveryEvent(true);
      } else {
        EveryEventListed(choice.event);
        events := events[choice.event := true];
      }
      enabled := true;
      return Done;
    }

    /** Disabling needs no channel. Turning off the last event turns logging off. */
    method Disable(choice: Choice)
      modifies this`enabled, this`events
      ensures choice == All ==>
                !enabled && events.Keys == old(events.Keys) && forall e :: e in events ==> !events[e]
      ensures choice.One? ==> events == old(events)[choice.event := false]
      ensures choice.One? ==> enabled == (old(enabled) && AnyEventOn())
      ensures old(Valid()) ==> Valid()
    {
      if choice == All {
        SetEveryEvent(false);
        enabled := false;
      } else {
        EveryEventListed(choice.event);
        events := events[choice.event := false];
        if !AnyEventOn() {
          enabled := false;
        }
      }
    }

    method Ignore(target: Target, id: string, found: bool) returns (r: Reply)
      modifies this`ignoredChannels, this`ignoredRoles
      ensures r == (if !IsAllDigits(id) then InvalidId else if !found then NotFound else Done)
      ensures ignoredChannels == if r == Done && target == ChannelTarget then AppendIfAbsent(old(ignoredChannels), id) else old(ignoredChannels)
      ensures ignoredRoles == if r == Done && target == RoleTarget then AppendIfAbsent(old(ignoredRoles), id) else old(ignoredRoles)
      ensures old(Valid()) ==> Valid()
    {
      if !IsAllDigits(id) {
        return InvalidId;
      }
      if !found {
        return NotFound;
      }
      if target == ChannelTarget {
        if NoDups(ignoredChannels) { AppendIfAbsentNoDups(ignoredChannels, id); }
        ignoredChannels := AppendIfAbsent(ignoredChannels, id);
      } else {
        if NoDups(ignoredRoles) { AppendIfAbsentNoDups(ignoredRoles, id); }
        ignoredRoles := AppendIfAbsent(ignoredRoles, id);
      }
      return Done;
    }

    method Unignore(target: Target, id: string) returns (r: Reply)
      modifies this`ignoredChannels, this`ignoredRoles
      ensures var list := if target == ChannelTarget then old(ignoredChannels) else old(ignoredRoles);
              r == (if id in list then Done else NotIgnored)
      ensures ignoredChannels == if target == ChannelTarget then RemoveFirst(old(ignoredChannels), id) else old(ignoredChannels)
      ensures ignoredRoles == if target == RoleTarget then RemoveFirst(old(ignoredRoles), id) else old(ignoredRoles)
      ensures old(Valid()) ==> Valid()
    {
      if target == ChannelTarget {
        r := if id in ignoredChannels then Done else NotIgnored;
        if NoDups(ignoredChannels) { RemoveFirstNoDups(ignoredChannels, id); }
        RemoveFirstMultiset(ignoredChannels, id);
        ignoredChannels := RemoveFirst(ignoredChannels, id);
      } else {
        r := if id in ignoredRoles then Done else NotIgnored;
        if NoDups(ignoredRoles) { RemoveFirstNoDups(ignoredRoles, id); }
        RemoveFirstMultiset(ignoredRoles, id);
        ignoredRoles := RemoveFirst(ignoredRoles, id);
      }
    }
  }
}
