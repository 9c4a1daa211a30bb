/** The polls list of a guild record, the `/advancedpoll` subcommands, `endPoll`
    and `formatDuration` (commands/polls/advancedpoll.js). */
module AdvancedPolls {
  import opened Common

  const MaxOptions := 10
  const MinOptions := 2
  const ButtonsPerRow := 5

  datatype Poll = Poll(
    id: string, messageId: string, channelId: string, question: string, options: seq<string>,
    votes: map<string, seq<int>>, allowMultiple: bool, createdAt: int, createdBy: string,
    endsAt: Option<int>, ended: bool, endedAt: Option<int>)

  datatype Reply = Done | TooManyOptions | TooFewOptions | NotActive | NoPermission | EditFailed | NoPolls

  /** The option-count check of create, on the parsed options. */
  function OptionsCheck(options: seq<string>): (r: Reply)
    ensures r == Done <==> MinOptions <= |options| <= MaxOptions
    ensures |options| > MaxOptions ==> r == TooManyOptions
    ensures |options| < MinOptions ==> r == TooFewOptions
  {
    if |options| > MaxOptions then TooManyOptions
    else if |options| < MinOptions then TooFewOptions
    else Done
  }

  function ButtonId(pollId: string, index: nat): string
  {
    "poll_" + pollId + "_" + NatToString(index)
  }

  /** The button id names the poll and the option: after the poll's prefix
      come exactly the digits of the index. */
  lemma ButtonIdNamesOption(pollId: string, index: nat)
    ensures StartsWith(ButtonId(pollId, index), "poll_" + pollId + "_")
    ensures var rest := ButtonId(pollId, index)[|pollId| + 6..];
              IsAllDigits(rest) && DigitsValue(rest) == index
  {
    var p := "poll_" + pollId + "_";
    assert ButtonId(pollId, index) == p + NatToString(index);
    assert ButtonId(pollId, index)[|p|..] == NatToString(index);
    NatToStringRoundTrip(index);
  }

  function ButtonIds(pollId: string, count: nat): (ids: seq<string>)
    ensures |ids| == count && forall k :: 0 <= k < count ==> ids[k] == ButtonId(pollId, k)
  {
    seq(count, k requires 0 <= k < count => ButtonId(pollId, k))
  }

  /** The button rows of create: the buttons in option order, a new row started
      before every fifth, so every row but the last is full. */
  method ButtonRows(pollId: string, count: nat) returns (rows: seq<seq<string>>)
    ensures Flatten(rows) == ButtonIds(pollId, count)
    ensures forall r :: 0 <= r < |rows| ==> 1 <= |rows[r]| <= ButtonsPerRow
    ensures forall r :: 0 <= r < |rows| - 1 ==> |rows[r]| == ButtonsPerRow
  {
    rows := [];
    var current: seq<string> := [];
    ghost var ids := ButtonIds(pollId, count);
    for index := 0 to count
      invariant index == ButtonsPerRow * |rows| + |current|
      invariant |current| <= ButtonsPerRow && (index > 0 ==> |current| >= 1)
      invariant forall r :: 0 <= r < |rows| ==> |rows[r]| == ButtonsPerRow
      invariant Flatten(rows) + current == ids[..index]
    {
      if index > 0 && index % ButtonsPerRow == 0 {
        FullRow(index, |rows|, |current|);
        FlattenSnoc(rows, current);
        rows := rows + [current];
        current := [];
      }
      PrefixSnoc(ids, index, Flatten(rows), current);
      current := current + [ButtonId(pollId, index)];
    }
    assert ids[..count] == ids;
    if |current| > 0 {
      FlattenSnoc(rows, current);
      rows := rows + [current];
    } else {
      assert Flatten(rows) + current == Flatten(rows);
    }
  }

  /** A row is started only once the current one holds five buttons. */
  lemma FullRow(index: nat, full: nat, current: nat)
    requires index == ButtonsPerRow * full + current && 1 <= current <= ButtonsPerRow
    requires index % ButtonsPerRow == 0
    ensures current == ButtonsPerRow
  {
  }

  lemma FlattenSnoc<T>(lists: seq<seq<T>>, last: seq<T>)
    ensures Flatten(lists + [last]) == Flatten(lists) + last
  {
    assert (lists + [last])[..|lists|] == lists;
  }

  /** One more element of a list that is being rebuilt as a prefix and a rest. */
  lemma PrefixSnoc<T>(s: seq<T>, i: nat, done: seq<T>, current: seq<T>)
    requires i < |s| && done + current == s[..i]
    ensures done + (current + [s[i]]) == s[..i + 1]
  {
    assert s[..i + 1] == s[..i] + [s[i]];
  }

  /** How many times index k was voted for, over all voters' lists taken in turn. */
  function Count(votes: seq<int>, k: int): nat
  {
    if votes == [] then 0 else Count(votes[..|votes| - 1], k) + (if votes[|votes| - 1] == k then 1 else 0)
  }

  function Flatten<T>(lists: seq<seq<T>>): seq<T>
  {
    if lists == [] then [] else Flatten(lists[..|lists| - 1]) + lists[|lists| - 1]
  }

  function Occurrences(lists: seq<seq<int>>, k: int): nat
  {
    Count(Flatten(lists), k)
  }

  /** The tally of endPoll over the voters' lists: each vote adds one to the entry
      of its index, an index outside the options included; an option nobody voted
      for shows 0. The maximum is taken over every entry and 0. */
  method Tally(optionCount: nat, lists: seq<seq<int>>) returns (results: seq<nat>, maxVotes: nat)
    ensures |results| == optionCount
    ensures forall i :: 0 <= i < optionCount ==> results[i] == Occurrences(lists, i)
    ensures forall k :: Occurrences(lists, k) <= maxVotes
    ensures maxVotes == 0 || exists k :: Occurrences(lists, k) == maxVotes
  {
    var flat := Flatten(lists);
    var counts: map<int, nat> := map[];
    maxVotes := 0;
    ghost var best: int := 0;
    for j := 0 to |flat|
      invariant forall k :: k in counts ==> counts[k] == Count(flat[..j], k)
      invariant forall k :: k !in counts ==> Count(flat[..j], k) == 0
      invariant forall k :: Count(flat[..j], k) <= maxVotes
      invariant maxVotes == 0 || Count(flat[..j], best) == maxVotes
    {
      var x := flat[j];
      assert flat[..j + 1][..j] == flat[..j];
      var c := (if x in counts then counts[x] else 0) + 1;
      counts := counts[x := c];
      if c > maxVotes {
        best := x;
      }
      maxVotes := Max(maxVotes, c);
    }
    assert flat[..|flat|] == flat;
    assert maxVotes == 0 || Occurrences(lists, best) == maxVotes;
    results := seq(optionCount, i => if i in counts then counts[i] else 0);
  }

  /** The crown test of endPoll: the option's count equals the maximum, and someone voted. */
  predicate Crowned(results: seq<nat>, maxVotes: nat, i: nat)
    requires i < |results|
  {
    results[i] == maxVotes && maxVotes > 0
  }

  /** An option no index outdoes, voted for at least once. */
  ghost predicate MostVoted(lists: seq<seq<int>>, i: int)
  {
    Occurrences(lists, i) > 0 && forall k :: Occurrences(lists, k) <= Occurrences(lists, i)
  }

  /** On a tally of the votes, the crown marks exactly the most-voted options. */
  lemma CrownedIsMostVoted(lists: seq<seq<int>>, results: seq<nat>, maxVotes: nat, i: nat)
    requires i < |results| && results[i] == Occurrences(lists, i)
    requires forall k :: Occurrences(lists, k) <= maxVotes
    requires maxVotes == 0 || exists k :: Occurrences(lists, k) == maxVotes
    ensures Crowned(results, maxVotes, i) <==> MostVoted(lists, i)
  {
    if MostVoted(lists, i) {
      assert maxVotes > 0;
      var k :| Occurrences(lists, k) == maxVotes;
      assert Occurrences(lists, k) <= Occurrences(lists, i);
    }
  }

  /** The stored polls never receive votes, so their tally is all zeros and no
      option is crowned. */
  lemma {:induction false} NoVotesNoCount(lists: seq<seq<int>>, k: int)
    requires forall a :: 0 <= a < |lists| ==> lists[a] == []
    ensures Occurrences(lists, k) == 0
  {
    if lists != [] {
      NoVotesNoCount(lists[..|lists| - 1], k);
      assert Flatten(lists) == Flatten(lists[..|lists| - 1]);
    }
  }

  /** The parts formatDuration shows. */
  datatype Shown = DaysHours(days: nat, hours: nat) | HoursMinutes(hours: nat, minutes: nat) | MinutesOnly(minutes: nat)

  function DurationParts(ms: nat): (s: Shown)
    ensures s.DaysHours? <==> ms / 86400000 > 0
    ensures s.DaysHours? ==> s.days == ms / 86400000 && s.hours < 24 && s.days * 24 + s.hours == ms / 3600000
    ensures s.HoursMinutes? ==> s.hours > 0 && s.hours < 24 && s.minutes < 60 && s.hours * 60 + s.minutes == ms / 60000
    ensures s.MinutesOnly? ==> s.minutes < 60 && s.minutes == ms / 60000
  {
    var seconds := ms / 1000;
    var minutes := seconds / 60;
    var hours := minutes / 60;
    var days := hours / 24;
    assert minutes == ms / 60000 && hours == ms / 3600000 && days == ms / 86400000;
    if days > 0 then DaysHours(days, hours % 24)
    else if hours > 0 then HoursMinutes(hours, minutes % 60)
    else MinutesOnly(minutes)
  }

  function FormatDuration(ms: nat): string
  {
    match DurationParts(ms)
    case DaysHours(d, h) => NatToString(d) + "d " + NatToString(h) + "h"
    case HoursMinutes(h, m) => NatToString(h) + "h " + NatToString(m) + "m"
    case MinutesOnly(m) => NatToString(m) + "m"
  }

  predicate Running(p: Poll) { !p.ended }
  predicate ActiveWithId(id: string, p: Poll) { p.id == id && !p.ended }

  /** What endPoll found. */
  datatype Ending = ChannelGone | MessageGone | MessageEdited(ok: bool)

  class Registry {
    var polls: seq<Poll>

    /** No code path writes votes: every poll keeps the empty map it was created with. */
    ghost predicate Valid()
      reads this
    {
      forall k :: 0 <= k < |polls| ==> polls[k].votes == map[]
    }

    /** The state a freshly created section is in. */
    ghost predicate Initial()
      reads this
    {
      polls == []
    }

    constructor ()
      ensures Initial() && Valid()
    {
      polls := [];
    }

    /** `/advancedpoll create` on the parsed options. `duration` is the minutes option
        (`|| 0`), `pollId` the generated id and `posted` the message sent. */
    method Create(pollId: string, question: string, optionsString: string, channel: string,
                  multiple: Option<bool>, duration: Option<int>, author: string, now: int, posted: string)
      returns (r: Reply)
      modifies this
      ensures var options := OptionList(optionsString);
        var minutes := if duration.Some? then duration.value else 0;
        && r == OptionsCheck(options)
        && polls == if r == Done then old(polls) + [Poll(pollId, posted, channel, question, options, map[],
                                                        multiple == Some(true), now, author,
                                                        if minutes > 0 then Some(now + minutes * 60000) else None,
                                                        false, None)]
                    else old(polls)
      ensures old(Valid()) ==> Valid()
    {
      var options := OptionList(optionsString);
      r := OptionsCheck(options);
      if r != Done {
        return;
      }
      var minutes := if duration.Some? then duration.value else 0;
      polls := polls + [Poll(pollId, posted, channel, question, options, map[], multiple == Some(true), now, author,
                             if minutes > 0 then Some(now + minutes * 60000) else None, false, None)];
    }

    /** The guard of `/advancedpoll end`: a running poll, ended by its creator or a
        holder of Manage Messages. */
    function EndCheck(pollId: string, user: string, manageMessages: bool): (r: Reply)
      reads this
      ensures var i := FindIndex(polls, p => ActiveWithId(pollId, p));
        && (r == NotActive <==> i == -1)
        && (r == NoPermission <==> i != -1 && polls[i].createdBy != user && !manageMessages)
        && (r == Done <==> i != -1 && (polls[i].createdBy == user || manageMessages))
    {
      var i := FindIndex(polls, p => ActiveWithId(pollId, p));
      if i == -1 then NotActive
      else if polls[i].createdBy != user && !manageMessages then NoPermission
      else Done
    }

    /** endPoll: a running poll whose channel or message is gone is just marked ended;
        otherwise it is ended at `now` once its message is edited, and left running
        when the edit fails. */
    method EndPoll(pollId: string, found: Ending, now: int) returns (r: Reply)
      modifies this
      ensures var i := FindIndex(old(polls), p => ActiveWithId(pollId, p));
        && (i == -1 ==> r == NotActive && polls == old(polls))
        && (i != -1 && !found.MessageEdited? ==> r == Done && polls == old(polls)[i := old(polls)[i].(ended := true)])
        && (i != -1 && found == MessageEdited(true) ==>
              r == Done && polls == old(polls)[i := old(polls)[i].(ended := true, endedAt := Some(now))])
        && (i != -1 && found == MessageEdited(false) ==> r == EditFailed && polls == old(polls))
      ensures old(Valid()) ==> Valid()
    {
      var i := FindIndex(polls, p => ActiveWithId(pollId, p));
      if i == -1 {
        return NotActive;
      }
      match found
      case ChannelGone =>
        polls := polls[i := polls[i].(ended := true)];
        r := Done;
      case MessageGone =>
        polls := polls[i := polls[i].(ended := true)];
        r := Done;
      case MessageEdited(ok) =>
        if !ok {
          return EditFailed;
        }
        polls := polls[i := polls[i].(ended := true, endedAt := Some(now))];
        r := Done;
    }

    /** `/advancedpoll list`: the polls still running. */
    function Listed(): (l: seq<Poll>)
      reads this
      ensures IsSubsequence(l, polls)
      ensures forall p :: p in l <==> p in polls && !p.ended
    {
      FilterSubsequence(polls, Running);
      Filter(polls, Running)
    }
  }
}
