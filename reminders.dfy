/** The reminders list of a user record, the `/reminder` subcommands and
    `sendReminder` (commands/reminder/reminder.js). */
module Reminders {
  import opened Common

  const MinDelay := 1000
  const MaxDelay := 2592000000

  datatype Reminder = Reminder(
    id: int, userId: string, guildId: string, channelId: string, message: string,
    createdAt: int, endTime: int, completed: bool)

  datatype Reply = Done | BadTime | OutOfRange | NoneActive | NotActive

  function TimeCheck(parsed: Parsed): (r: Reply)
    ensures r == Done <==> parsed.Millis? && MinDelay <= parsed.ms <= MaxDelay
    ensures parsed == ParseError ==> r == BadTime
    ensures r != Done && parsed != ParseError ==> r == OutOfRange
  {
    match DelayCheck(parsed, MinDelay, MaxDelay)
    case InWindow => Done
    case Unparsed => BadTime
    case OutsideWindow => OutOfRange
  }

  /** The largest id in the list. */
  function MaxId(rs: seq<Reminder>): (m: int)
    requires |rs| > 0
    ensures forall k :: 0 <= k < |rs| ==> rs[k].id <= m
    ensures exists k :: 0 <= k < |rs| && rs[k].id == m
  {
    if |rs| == 1 then rs[0].id
    else
      var m := MaxId(rs[1..]);
      assert forall k :: 1 <= k < |rs| ==> rs[k] == rs[1..][k - 1];
      if rs[0].id >= m then rs[0].id else m
  }

  /** The id of a new reminder: one more than the largest, or 1 for an empty list. */
  function NextId(rs: seq<Reminder>): (id: int)
    ensures forall k :: 0 <= k < |rs| ==> rs[k].id < id
    ensures |rs| == 0 ==> id == 1
  {
    if |rs| > 0 then MaxId(rs) + 1 else 1
  }

  predicate ActiveWithId(id: int, r: Reminder) { r.id == id && !r.completed }
  predicate Active(r: Reminder) { !r.completed }

  /** Where sendReminder delivered the reminder. */
  datatype Delivery = NotDue | InChannel | ByDirectMessage | Lost

  class Registry {
    var reminders: seq<Reminder>

    /** No two reminders share an id. */
    ghost predicate Valid()
      reads this
    {
      forall i, j :: 0 <= i < j < |reminders| ==> reminders[i].id != reminders[j].id
    }

    /** The state a freshly created section is in. */
    ghost predicate Initial()
      reads this
    {
      reminders == []
    }

    constructor ()
      ensures Initial() && Valid()
    {
      reminders := [];
    }

    /** `/reminder set`: appends an open reminder due `duration` after `now`. */
    method Set(parsed: Parsed, message: string, user: string, guild: string, channel: string, now: int)
      returns (r: Reply)
      modifies this
      ensures r == TimeCheck(parsed)
      ensures reminders == if r == Done then old(reminders) + [Reminder(NextId(old(reminders)), user, guild, channel,
                                                                       message, now, now + parsed.ms, false)]
                           else old(reminders)
      ensures old(Valid()) ==> Valid()
    {
      r := TimeCheck(parsed);
      if r != Done {
        return;
      }
      reminders := reminders + [Reminder(NextId(reminders), user, guild, channel, message, now, now + parsed.ms, false)];
    }

    /** `/reminder list`: the reminders not yet completed. */
    function Listed(): (l: seq<Reminder>)
      reads this
      ensures IsSubsequence(l, reminders)
      ensures forall x :: x in l <==> x in reminders && !x.completed
    {
      FilterSubsequence(reminders, Active);
      Filter(reminders, Active)
    }

    /** `/reminder cancel`: only an open reminder with the id; it is marked completed. */
    method Cancel(id: int) returns (r: Reply)
      modifies this
      ensures var i := FindIndex(old(reminders), x => ActiveWithId(id, x));
        && r == (if i == -1 then NotActive else Done)
        && reminders == if i == -1 then old(reminders) else old(reminders)[i := old(reminders)[i].(completed := true)]
      ensures old(Valid()) ==> Valid()
    {
      var i := FindIndex(reminders, x => ActiveWithId(id, x));
      if i == -1 {
        return NotActive;
      }
      reminders := reminders[i := reminders[i].(completed := true)];
      return Done;
    }

    /** sendReminder: nothing for a completed or cancelled reminder; otherwise it is
        marked completed first, then sent in its channel, or by direct message when
        the channel is gone. `guildFound`, `channelFound` and `userFound` are what
        the fetches gave. */
    method SendReminder(id: int, guildFound: bool, channelFound: bool, userFound: bool) returns (d: Delivery)
      modifies this
      ensures var i := FindIndex(old(reminders), x => ActiveWithId(id, x));
        && (i == -1 ==> d == NotDue && reminders == old(reminders))
        && (i != -1 ==> reminders == old(reminders)[i := old(reminders)[i].(completed := true)]
                        && d == (if !guildFound then Lost
                                 else if channelFound then InChannel
                                 else if userFound then ByDirectMessage
                                 else Lost))
      ensures old(Valid()) ==> Valid()
    {
      var i := FindIndex(reminders, x => ActiveWithId(id, x));
      if i == -1 {
        return NotDue;
      }
      reminders := reminders[i := reminders[i].(completed := true)];
      if !guildFound {
        return Lost;
      }
      if channelFound {
        return InChannel;
      }
      return if userFound then ByDirectMessage else Lost;
    }
  }
}
