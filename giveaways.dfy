/** The giveaways list of a guild record, the `/giveaway` subcommands and
    `endGiveaway`/`rerollGiveaway` (commands/giveaway/giveaway.js). The random
    draws are inputs: `picks[i]` is the index chosen on the i-th draw. */
module Giveaways {
  import opened Common

  const DefaultDescription: string := "React with 🎉 to enter!"
  const MinDuration := 10000

  datatype Giveaway = Giveaway(
    messageId: string, channelId: string, prize: string, description: string,
    winnerCount: int, endTime: int, hostId: string, requiredRoleId: Option<string>,
    ended: bool, winners: Option<seq<string>>)

  /** A user who reacted, and whether their member record holds the required role. */
  datatype Entrant = Entrant(id: string, bot: bool, hasRole: bool)

  /** Bots never enter; when the required role resolves, only its holders do. */
  predicate Enters(requiredRoleId: Option<string>, roleFound: bool, e: Entrant)
  {
    !e.bot && (requiredRoleId.Some? && requiredRoleId.value != "" && roleFound ==> e.hasRole)
  }

  function Ids(es: seq<Entrant>): (ids: seq<string>)
    ensures |ids| == |es| && forall k :: 0 <= k < |es| ==> ids[k] == es[k].id
  {
    seq(|es|, k requires 0 <= k < |es| => es[k].id)
  }

  /** The ids of the eligible entrants, in reaction order. */
  function Eligible(entrants: seq<Entrant>, requiredRoleId: Option<string>, roleFound: bool): seq<string>
  {
    Ids(Filter(entrants, e => Enters(requiredRoleId, roleFound, e)))
  }

  lemma EligibleCorrect(entrants: seq<Entrant>, requiredRoleId: Option<string>, roleFound: bool)
    ensures forall id :: id in Eligible(entrants, requiredRoleId, roleFound) <==>
              exists k :: 0 <= k < |entrants| && entrants[k].id == id && Enters(requiredRoleId, roleFound, entrants[k])
  {
    forall id ensures id in Eligible(entrants, requiredRoleId, roleFound) <==>
              exists k :: 0 <= k < |entrants| && entrants[k].id == id && Enters(requiredRoleId, roleFound, entrants[k])
    {
      if id in Eligible(entrants, requiredRoleId, roleFound) {
        EligibleEntered(entrants, requiredRoleId, roleFound, id);
      }
      if exists k :: 0 <= k < |entrants| && entrants[k].id == id && Enters(requiredRoleId, roleFound, entrants[k]) {
        var k :| 0 <= k < |entrants| && entrants[k].id == id && Enters(requiredRoleId, roleFound, entrants[k]);
        EnteredEligible(entrants, requiredRoleId, roleFound, k);
      }
    }
  }

  lemma EligibleEntered(entrants: seq<Entrant>, requiredRoleId: Option<string>, roleFound: bool, id: string)
    requires id in Eligible(entrants, requiredRoleId, roleFound)
    ensures exists k :: 0 <= k < |entrants| && entrants[k].id == id && Enters(requiredRoleId, roleFound, entrants[k])
  {
    var f := Filter(entrants, e => Enters(requiredRoleId, roleFound, e));
    var j :| 0 <= j < |f| && Ids(f)[j] == id;
    assert f[j] in entrants;
    var k :| 0 <= k < |entrants| && entrants[k] == f[j];
  }

  lemma EnteredEligible(entrants: seq<Entrant>, requiredRoleId: Option<string>, roleFound: bool, k: nat)
    requires k < |entrants| && Enters(requiredRoleId, roleFound, entrants[k])
    ensures entrants[k].id in Eligible(entrants, requiredRoleId, roleFound)
  {
    var f := Filter(entrants, e => Enters(requiredRoleId, roleFound, e));
    assert entrants[k] in f;
    var j :| 0 <= j < |f| && f[j] == entrants[k];
    assert Ids(f)[j] == entrants[k].id;
  }

  /** Random indices that are in range on every draw: the i-th is below the size of
      the pool after i removals. */
  predicate PicksInRange(poolSize: nat, picks: seq<nat>)
  {
    |picks| <= poolSize && forall i :: 0 <= i < |picks| ==> picks[i] < poolSize - i
  }

  /** The draws: each pick takes the entrant at that index out of the pool.
      Returns the winners in draw order and what is left of the pool. */
  function Draws(pool: seq<string>, picks: seq<nat>): (r: (seq<string>, seq<string>))
    requires PicksInRange(|pool|, picks)
    ensures |r.0| == |picks| && |r.1| == |pool| - |picks|
    decreases |picks|
  {
    if |picks| == 0 then ([], pool)
    else
      var rest := Draws(RemoveAt(pool, picks[0]), picks[1..]);
      ([pool[picks[0]]] + rest.0, rest.1)
  }

  /** Winners and leftovers together are the pool. */
  lemma {:induction false} DrawsPartition(pool: seq<string>, picks: seq<nat>)
    requires PicksInRange(|pool|, picks)
    ensures multiset(Draws(pool, picks).0) + multiset(Draws(pool, picks).1) == multiset(pool)
    decreases |picks|
  {
    if |picks| > 0 {
      var p := picks[0];
      var smaller := RemoveAt(pool, p);
      DrawsPartition(smaller, picks[1..]);
      RemoveAtMultiset(pool, p);
      var rest := Draws(smaller, picks[1..]);
      assert multiset(Draws(pool, picks).0) == multiset{pool[p]} + multiset(rest.0);
      assert pool[p] in multiset(pool);
      calc {
        multiset(Draws(pool, picks).0) + multiset(Draws(pool, picks).1);
        multiset{pool[p]} + (multiset(rest.0) + multiset(rest.1));
        multiset{pool[p]} + (multiset(pool) - multiset{pool[p]});
        multiset(pool);
      }
    }
  }

  /** From a pool without duplicates nobody wins twice, or both wins and stays. */
  lemma {:induction false} DrawsDistinct(pool: seq<string>, picks: seq<nat>)
    requires PicksInRange(|pool|, picks) && NoDups(pool)
    ensures NoDups(Draws(pool, picks).0 + Draws(pool, picks).1)
    decreases |picks|
  {
    if |picks| > 0 {
      var p := picks[0];
      var smaller := RemoveAt(pool, p);
      RemoveAtNoDups(pool, p);
      DrawsDistinct(smaller, picks[1..]);
      DrawsPartition(smaller, picks[1..]);
      var rest := Draws(smaller, picks[1..]);
      assert Draws(pool, picks) == ([pool[p]] + rest.0, rest.1);
      PrependDistinct(pool[p], rest.0, rest.1, smaller);
    }
  }

  /** A winner drawn from outside the rest of the draw keeps it free of repeats. */
  lemma PrependDistinct(x: string, winners: seq<string>, left: seq<string>, rest: seq<string>)
    requires NoDups(winners + left) && multiset(winners) + multiset(left) == multiset(rest) && x !in rest
    ensures NoDups(([x] + winners) + left)
  {
    var tail := winners + left;
    assert multiset(tail) == multiset(rest);
    assert x !in tail by {
      assert x !in multiset(rest);
    }
    assert ([x] + winners) + left == [x] + tail;
    NoDupsCons(x, tail);
  }

  lemma NoDupsCons(x: string, t: seq<string>)
    requires NoDups(t) && x !in t
    ensures NoDups([x] + t)
  {
    var all := [x] + t;
    forall i, j | 0 <= i < j < |all| ensures all[i] != all[j] {
      assert all[j] == t[j - 1];
      if i > 0 { assert all[i] == t[i - 1]; }
    }
  }

  /** The draw loop: Min(count, |pool|) draws. */
  method DrawWinners(pool: seq<string>, count: int, picks: seq<nat>) returns (winners: seq<string>, left: seq<string>)
    requires |picks| == Min(count, |pool|) >= 0 && PicksInRange(|pool|, picks)
    ensures (winners, left) == Draws(pool, picks)
    ensures |winners| == Min(count, |pool|)
    ensures multiset(winners) + multiset(left) == multiset(pool)
    ensures NoDups(pool) ==> NoDups(winners + left)
  {
    winners := [];
    var users := pool;
    var i := 0;
    assert picks[0..] == picks;
    assert [] + Draws(pool, picks).0 == Draws(pool, picks).0;
    while i < |picks|
      invariant 0 <= i <= |picks|
      invariant |users| == |pool| - i
      invariant PicksInRange(|users|, picks[i..])
      invariant (winners + Draws(users, picks[i..]).0, Draws(users, picks[i..]).1) == Draws(pool, picks)
    {
      var p := picks[i];
      DrawStep(pool, picks, i, winners, users);
      winners := winners + [users[p]];
      users := RemoveAt(users, p);
      i := i + 1;
    }
    assert picks[i..] == [];
    assert winners + [] == winners;
    left := users;
    DrawsPartition(pool, picks);
    if NoDups(pool) { DrawsDistinct(pool, picks); }
  }

  /** One turn of the draw loop: the next winner moves from the pool's rest to the
      winners drawn so far. */
  lemma DrawStep(pool: seq<string>, picks: seq<nat>, i: nat, winners: seq<string>, users: seq<string>)
    requires PicksInRange(|pool|, picks) && i < |picks| && PicksInRange(|users|, picks[i..])
    requires (winners + Draws(users, picks[i..]).0, Draws(users, picks[i..]).1) == Draws(pool, picks)
    ensures picks[i] < |users| && PicksInRange(|users| - 1, picks[i + 1..])
    ensures var next := Draws(RemoveAt(users, picks[i]), picks[i + 1..]);
      ((winners + [users[picks[i]]]) + next.0, next.1) == Draws(pool, picks)
  {
    var ps := picks[i..];
    assert ps[0] == picks[i] && ps[1..] == picks[i + 1..];
    DrawsCons(users, ps);
    var next := Draws(RemoveAt(users, picks[i]), picks[i + 1..]);
    Regroup(winners, [users[picks[i]]], next.0);
  }

  /** The first draw, unfolded. */
  lemma DrawsCons(users: seq<string>, ps: seq<nat>)
    requires PicksInRange(|users|, ps) && |ps| > 0
    ensures ps[0] < |users| && PicksInRange(|users| - 1, ps[1..])
    ensures var next := Draws(RemoveAt(users, ps[0]), ps[1..]);
      Draws(users, ps) == ([users[ps[0]]] + next.0, next.1)
  {
  }

  lemma Regroup(a: seq<string>, b: seq<string>, c: seq<string>)
    ensures a + (b + c) == (a + b) + c
  {
  }

  predicate Active(messageId: string, g: Giveaway) { g.messageId == messageId && !g.ended }
  predicate Finished(messageId: string, g: Giveaway) { g.messageId == messageId && g.ended }
  predicate Running(g: Giveaway) { !g.ended }
  predicate ForMessage(messageId: string, g: Giveaway) { g.messageId == messageId }

  datatype Reply = Done | BadDuration | TooShort | NotActive | UnknownGiveaway | NotEnded | NoneActive

  /** `parseDuration` check of `/giveaway start`. */
  function DurationCheck(parsed: Parsed): (r: Reply)
    ensures r == Done <==> parsed.Millis? && parsed.ms >= MinDuration
    ensures parsed == ParseError ==> r == BadDuration
    ensures r != Done && parsed != ParseError ==> r == TooShort
  {
    match parsed
    case ParseError => BadDuration
    case NoNumber => TooShort
    case Millis(ms) => if ms < MinDuration then TooShort else Done
  }

  /** What ending found: the channel and message, and the 🎉 reaction's users. */
  datatype Ending = ChannelGone | MessageGone | NoReaction | Entrants(entrants: seq<Entrant>, roleFound: bool)

  class Registry {
    var giveaways: seq<Giveaway>

    /** The state a freshly created section is in. */
    ghost predicate Initial()
      reads this
    {
      giveaways == []
    }

    constructor ()
      ensures Initial()
    {
      giveaways := [];
    }

    /** `/giveaway start`: a running giveaway ending `duration` after `now`, stored
        once its message (`posted`) is sent. The end is then scheduled. */
    method Start(parsed: Parsed, prize: string, description: Option<string>, winnerCount: int, channel: string,
                 requiredRoleId: Option<string>, host: string, now: int, posted: string) returns (r: Reply)
      modifies this
      ensures r == DurationCheck(parsed)
      ensures r == Done ==> giveaways == old(giveaways) + [Giveaway(posted, channel, prize,
                              if description.Some? && description.value != "" then description.value else DefaultDescription,
                              winnerCount, now + parsed.ms, host, requiredRoleId, false, None)]
      ensures r != Done ==> giveaways == old(giveaways)
    {
      r := DurationCheck(parsed);
      if r != Done {
        return;
      }
      var d := if description.Some? && description.value != "" then description.value else DefaultDescription;
      giveaways := giveaways + [Giveaway(posted, channel, prize, d, winnerCount, now + parsed.ms, host, requiredRoleId, false, None)];
    }

    /** endGiveaway: the first running giveaway for the message is ended whatever
        is found; with entrants, Min(winnerCount, eligible) are drawn and the
        stored `winners` field receives the entrants that were not drawn. */
    method EndGiveaway(messageId: string, found: Ending, picks: seq<nat>) returns (drawn: seq<string>)
      requires found.Entrants? ==>
                 var g := FindIndex(giveaways, x => Active(messageId, x));
                 var pool := Eligible(found.entrants, if g == -1 then None else giveaways[g].requiredRoleId, found.roleFound);
                 g != -1 ==> |picks| == Min(giveaways[g].winnerCount, |pool|) >= 0 && PicksInRange(|pool|, picks)
      modifies this
      ensures var i := FindIndex(old(giveaways), x => Active(messageId, x));
        && (i == -1 ==> giveaways == old(giveaways) && drawn == [])
        && (i != -1 && !found.Entrants? ==> giveaways == old(giveaways)[i := old(giveaways)[i].(ended := true)] && drawn == [])
        && (i != -1 && found.Entrants? ==>
              var g := old(giveaways)[i];
              var pool := Eligible(found.entrants, g.requiredRoleId, found.roleFound);
              && drawn == Draws(pool, picks).0
              && giveaways == old(giveaways)[i := g.(ended := true, winners := Some(Draws(pool, picks).1))])
    {
      var i := FindIndex(giveaways, x => Active(messageId, x));
      if i == -1 {
        return [];
      }
      var g := giveaways[i];
      if !found.Entrants? {
        giveaways := giveaways[i := g.(ended := true)];
        return [];
      }
      var pool := Eligible(found.entrants, g.requiredRoleId, found.roleFound);
      var left;
      drawn, left := DrawWinners(pool, g.winnerCount, picks);
      giveaways := giveaways[i := g.(ended := true, winners := Some(left))];
    }

    /** The guard of `/giveaway end`: only a running giveaway can be ended. */
    function EndCheck(messageId: string): (r: Reply)
      reads this
      ensures r == Done <==> exists k :: 0 <= k < |giveaways| && Active(messageId, giveaways[k])
      ensures r != Done ==> r == NotActive
    {
      if FindIndex(giveaways, x => Active(messageId, x)) == -1 then NotActive else Done
    }

    /** The guard of `/giveaway reroll`: the first giveaway for the message must have ended. */
    function RerollCheck(messageId: string): (r: Reply)
      reads this
      ensures var i := FindIndex(giveaways, x => ForMessage(messageId, x));
        && (r == UnknownGiveaway <==> i == -1)
        && (r == NotEnded <==> i != -1 && !giveaways[i].ended)
        && (r == Done <==> i != -1 && giveaways[i].ended)
    {
      var i := FindIndex(giveaways, x => ForMessage(messageId, x));
      if i == -1 then UnknownGiveaway else if !giveaways[i].ended then NotEnded else Done
    }

    /** rerollGiveaway: new winners drawn from the current entrants of the first ended
        giveaway for the message; nothing is stored. `count` is `winners || winnerCount`. */
    method Reroll(messageId: string, count: Option<int>, found: Ending, picks: seq<nat>) returns (drawn: seq<string>)
      requires found.Entrants? ==>
                 var g := FindIndex(giveaways, x => Finished(messageId, x));
                 var pool := Eligible(found.entrants, if g == -1 then None else giveaways[g].requiredRoleId, found.roleFound);
                 var n := if g == -1 then 0 else if count.Some? && count.value != 0 then count.value else giveaways[g].winnerCount;
                 g != -1 ==> |picks| == Min(n, |pool|) >= 0 && PicksInRange(|pool|, picks)
      ensures var i := FindIndex(giveaways, x => Finished(messageId, x));
        && (i == -1 || !found.Entrants? ==> drawn == [])
        && (i != -1 && found.Entrants? ==>
              var pool := Eligible(found.entrants, giveaways[i].requiredRoleId, found.roleFound);
              var n := if count.Some? && count.value != 0 then count.value else giveaways[i].winnerCount;
              drawn == Draws(pool, picks).0 && |drawn| == Min(n, |pool|))
    {
      var i := FindIndex(giveaways, x => Finished(messageId, x));
      if i == -1 || !found.Entrants? {
        return [];
      }
      var g := giveaways[i];
      var pool := Eligible(found.entrants, g.requiredRoleId, found.roleFound);
      var n := if count.Some? && count.value != 0 then count.value else g.winnerCount;
      var left;
      drawn, left := DrawWinners(pool, n, picks);
    }

    /** `/giveaway list`: the giveaways still running. */
    function Listed(): (l: seq<Giveaway>)
      reads this
      ensures IsSubsequence(l, giveaways)
      ensures forall g :: g in l <==> g in giveaways && !g.ended
    {
      FilterSubsequence(giveaways, Running);
      Filter(giveaways, Running)
    }
  }
}
