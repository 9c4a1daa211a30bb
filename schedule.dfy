/** The scheduledMessages list of a guild record and the `/schedule` subcommands
    (commands/utility/schedule.js). Sending a message when its time comes is not
    part of this file. */
module Schedule {
  import opened Common
  import opened Sorting

  const MinDelay := 10000
  const MaxDelay := 2592000000
  const DefaultColour: string := "#5865F2"

  datatype Body = PlainMessage(content: string) | EmbedMessage(title: string, description: string, colour: string)

  datatype Scheduled = Scheduled(
    id: string, body: Body, channelId: string, scheduledTime: int, createdBy: string, createdAt: int)

  datatype Reply = Done | BadTime | OutOfRange | InvalidColour | NothingScheduled | UnknownId

  /** The time check shared by both kinds: between 10 seconds and 30 days. */
  function TimeCheck(parsed: Parsed): (r: Reply)
    ensures r == Done <==> parsed.Millis? && MinDelay <= parsed.ms <= MaxDelay
    ensures parsed == ParseError ==> r == BadTime
    ensures r != Done && parsed != ParseError ==> r == OutOfRange
  {
    match DelayCheck(parsed, MinDelay, MaxDelay)
    case InWindow => Done
    case Unparsed => BadTime
    case OutsideWindow => OutOfRange
  }

  /** `color || "#5865F2"`, then the hex check, after the time check. */
  function EmbedCheck(parsed: Parsed, colour: Option<string>): (r: Reply)
    ensures TimeCheck(parsed) != Done ==> r == TimeCheck(parsed)
    ensures TimeCheck(parsed) == Done ==>
              (r == Done <==> IsHexColour(if colour.Some? && colour.value != "" then colour.value else DefaultColour))
    ensures r in {Done, BadTime, OutOfRange, InvalidColour}
  {
    var c := if colour.Some? && colour.value != "" then colour.value else DefaultColour;
    if TimeCheck(parsed) != Done then TimeCheck(parsed)
    else if !IsHexColour(c) then InvalidColour
    else Done
  }

  function NegTime(m: Scheduled): int { -m.scheduledTime }

  predicate HasId(id: string, m: Scheduled) { m.id == id }

  predicate SortedByTime(s: seq<Scheduled>)
  {
    forall i, j :: 0 <= i < j < |s| ==> s[i].scheduledTime <= s[j].scheduledTime
  }

  class Registry {
    var messages: seq<Scheduled>

    /** The state a freshly created section is in. */
    ghost predicate Initial()
      reads this
    {
      messages == []
    }

    constructor ()
      ensures Initial()
    {
      messages := [];
    }

    /** `/schedule message` and `/schedule embed`: the entry is due `duration` after
        `now` and is appended. `id` is the generated id. */
    method Add(id: string, parsed: Parsed, body: Body, colourOption: Option<string>, channel: string,
               author: string, now: int) returns (r: Reply)
      modifies this
      ensures r == (if body.PlainMessage? then TimeCheck(parsed) else EmbedCheck(parsed, colourOption))
      ensures var stored := if body.EmbedMessage? then
                              body.(colour := if colourOption.Some? && colourOption.value != "" then colourOption.value else DefaultColour)
                            else body;
              messages == if r == Done then old(messages) + [Scheduled(id, stored, channel, now + parsed.ms, author, now)]
                          else old(messages)
    {
      r := if body.PlainMessage? then TimeCheck(parsed) else EmbedCheck(parsed, colourOption);
      if r != Done {
        return;
      }
      var stored := if body.EmbedMessage? then
                      body.(colour := if colourOption.Some? && colourOption.value != "" then colourOption.value else DefaultColour)
                    else body;
      messages := messages + [Scheduled(id, stored, channel, now + parsed.ms, author, now)];
    }

    /** `/schedule list` sorts the stored list itself, earliest first; the sort is
        stable, so entries due at the same time keep their order. */
    method List() returns (r: Reply)
      modifies this
      ensures r == (if |old(messages)| == 0 then NothingScheduled else Done)
      ensures messages == if r == Done then SortDesc(old(messages), NegTime) else old(messages)
      ensures SortedByTime(messages) || r != Done
      ensures multiset(messages) == multiset(old(messages))
    {
      if |messages| == 0 {
        return NothingScheduled;
      }
      SortDescCorrect(messages, NegTime);
      messages := SortDesc(messages, NegTime);
      assert forall i, j :: 0 <= i < j < |messages| ==> NegTime(messages[i]) >= NegTime(messages[j]);
      return Done;
    }

    /** `/schedule cancel`: the first entry with the id is removed. */
    method Cancel(id: string) returns (r: Reply)
      modifies this
      ensures var i := FindIndex(old(messages), m => HasId(id, m));
        && r == (if i == -1 then UnknownId else Done)
        && messages == if i == -1 then old(messages) else RemoveAt(old(messages), i)
    {
      var i := FindIndex(messages, m => HasId(id, m));
      if i == -1 {
        return UnknownId;
      }
      messages := RemoveAt(messages, i);
      return Done;
    }
  }
}
