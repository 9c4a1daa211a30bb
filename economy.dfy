/** The coin economy: `/pay`, `/daily`, `/work` and `/shop`
    (commands/economy/pay.js, daily.js, work.js, shop.js). Balances live in the
    economy part of each user record; the random amounts are parameters bounded
    as the commands draw them. */
module Economy {
  import opened Common
  import Database

  const DailyCooldown: int := 86400000
  const WorkCooldown: int := 1800000
  const HourMs: int := 3600000
  const MinuteMs: int := 60000
  const SecondMs: int := 1000

  const MinDaily: int := 100
  const MaxDaily: int := 500
  const MinWork: int := 50
  const MaxWork: int := 250
  const MinLoot: int := 500
  const MaxLoot: int := 2500

  /** The milliseconds still to wait while on cooldown. */
  function TimeLeft(last: int, now: int, cooldown: int): (t: int)
    requires now - last < cooldown
    ensures t > 0
    ensures now + t == last + cooldown
  {
    cooldown - (now - last)
  }

  /** The `/daily` refusal's hours and minutes: whole hours, then the whole
      minutes of what is left over. */
  function HoursMinutes(t: int): (hm: (int, int))
    requires t > 0
    ensures hm.0 >= 0 && 0 <= hm.1 < 60
    ensures hm.0 * HourMs + hm.1 * MinuteMs <= t < hm.0 * HourMs + (hm.1 + 1) * MinuteMs
  {
    var h := t / HourMs;
    var rest := t % HourMs;
    var m := rest / MinuteMs;
    assert t == h * HourMs + rest;
    assert m * MinuteMs <= rest < (m + 1) * MinuteMs;
    (h, m)
  }

  /** The `/work` refusal's minutes and seconds. */
  function MinutesSeconds(t: int): (ms: (int, int))
    requires t > 0
    ensures ms.0 >= 0 && 0 <= ms.1 < 60
    ensures ms.0 * MinuteMs + ms.1 * SecondMs <= t < ms.0 * MinuteMs + (ms.1 + 1) * SecondMs
  {
    var m := t / MinuteMs;
    var rest := t % MinuteMs;
    var s := rest / SecondMs;
    assert t == m * MinuteMs + rest;
    assert s * SecondMs <= rest < (s + 1) * SecondMs;
    (m, s)
  }

  /** A daily claim made no later than now waits at most a full day: under 24
      hours, or exactly 24 hours and 0 minutes. */
  lemma DailyWaitAtMostADay(last: int, now: int)
    requires 0 <= now - last < DailyCooldown
    ensures var hm := HoursMinutes(TimeLeft(last, now, DailyCooldown));
      hm.0 < 24 || (hm.0 == 24 && hm.1 == 0)
  {
    var t := TimeLeft(last, now, DailyCooldown);
    var hm := HoursMinutes(t);
    assert t <= 24 * HourMs;
    if hm.0 == 24 {
      assert t - 24 * HourMs < MinuteMs;
    }
  }

  /** Work done no later than now waits at most 30 whole minutes. */
  lemma WorkWaitAtMostHalfAnHour(last: int, now: int)
    requires 0 <= now - last < WorkCooldown
    ensures MinutesSeconds(TimeLeft(last, now, WorkCooldown)).0 <= 30
  {
    var t := TimeLeft(last, now, WorkCooldown);
    var ms := MinutesSeconds(t);
  }

  datatype Reply =
    | Done
    | Cooldown(major: int, minor: int)   // hours and minutes, or minutes and seconds
    | SelfPayment
    | BotRecipient
    | Insufficient(balance: int)
    | UnknownItem
    | RoleFailed
    | Opened(reward: int)                 // the lootbox's coins

  /** `/daily` on the caller's economy record. */
  method Daily(e: Database.Economy, now: int, reward: int) returns (r: Reply)
    requires MinDaily <= reward <= MaxDaily
    modifies e`balance, e`lastDaily
    ensures old(OnCooldown(e.lastDaily, now, DailyCooldown)) ==>
              var hm := HoursMinutes(TimeLeft(old(e.lastDaily).value, now, DailyCooldown));
              r == Cooldown(hm.0, hm.1) && e.balance == old(e.balance) && e.lastDaily == old(e.lastDaily)
    ensures !old(OnCooldown(e.lastDaily, now, DailyCooldown)) ==>
              r == Done && e.balance == old(e.balance) + reward && e.lastDaily == Some(now)
    ensures r == Done && now != 0 ==> OnCooldown(e.lastDaily, now, DailyCooldown)
  {
    if OnCooldown(e.lastDaily, now, DailyCooldown) {
      var hm := HoursMinutes(TimeLeft(e.lastDaily.value, now, DailyCooldown));
      return Cooldown(hm.0, hm.1);
    }
    e.balance := e.balance + reward;
    e.lastDaily := Some(now);
    return Done;
  }

  /** `/work` on the caller's economy record. Active buffs play no part. */
  method Work(e: Database.Economy, now: int, earnings: int) returns (r: Reply)
    requires MinWork <= earnings <= MaxWork
    modifies e`balance, e`lastWork
    ensures old(OnCooldown(e.lastWork, now, WorkCooldown)) ==>
              var ms := MinutesSeconds(TimeLeft(old(e.lastWork).value, now, WorkCooldown));
              r == Cooldown(ms.0, ms.1) && e.balance == old(e.balance) && e.lastWork == old(e.lastWork)
    ensures !old(OnCooldown(e.lastWork, now, WorkCooldown)) ==>
              r == Done && e.balance == old(e.balance) + earnings && e.lastWork == Some(now)
    ensures r == Done && now != 0 ==> OnCooldown(e.lastWork, now, WorkCooldown)
  {
    if OnCooldown(e.lastWork, now, WorkCooldown) {
      var ms := MinutesSeconds(TimeLeft(e.lastWork.value, now, WorkCooldown));
      return Cooldown(ms.0, ms.1);
    }
    e.balance := e.balance + earnings;
    e.lastWork := Some(now);
    return Done;
  }

  /** The economy records of those of `ids` that have a user record. */
  ghost function EconomiesOf(db: Database.Store, ids: set<string>): set<Database.Economy>
    reads db
  {
    set id | id in ids && id in db.users :: db.users[id].economy
  }

  /** A user's balance as getUser would report it: 0 for a user not yet stored. */
  ghost function BalanceOf(db: Database.Store, id: string): int
    reads db, EconomiesOf(db, {id})
  {
    if id in db.users then db.users[id].economy.balance else 0
  }

  ghost function BuffsOf(db: Database.Store, id: string): map<string, int>
    reads db, EconomiesOf(db, {id})
  {
    if id in db.users then db.users[id].economy.buffs else map[]
  }

  /** The two getUser calls of `/pay`: both records, created when new. */
  method FetchPair(db: Database.Store, senderId: string, recipientId: string)
    returns (s: Database.User, t: Database.User)
    requires senderId != recipientId && db.Valid()
    modifies db`users, db`saves
    ensures db.Valid()
    ensures db.users == old(db.users)[senderId := s][recipientId := t]
    ensures s.economy != t.economy
    ensures s.economy.balance == old(BalanceOf(db, senderId))
    ensures t.economy.balance == old(BalanceOf(db, recipientId))
    ensures senderId in old(db.users) ==> s == old(db.users)[senderId]
    ensures recipientId in old(db.users) ==> t == old(db.users)[recipientId]
    ensures senderId !in old(db.users) ==> fresh(s.economy) && s.economy.NoClaims()
    ensures recipientId !in old(db.users) ==> fresh(t.economy) && t.economy.NoClaims()
  {
    s := db.GetUser(senderId);
    t := db.GetUser(recipientId);
    assert db.users[senderId] == s;
  }

  /** `/pay`: self-payment and bots are refused before either record is fetched;
      then both records are fetched (and created if new) and the amount moves
      only when the sender can cover it. */
  method Pay(db: Database.Store, senderId: string, recipientId: string, recipientBot: bool, amount: int)
    returns (r: Reply)
    requires amount >= 1
    requires db.Valid()
    modifies db`users, db`saves, EconomiesOf(db, {senderId, recipientId})`balance
    ensures db.Valid()
    ensures r == (if senderId == recipientId then SelfPayment
                  else if recipientBot then BotRecipient
                  else if old(BalanceOf(db, senderId)) < amount then Insufficient(old(BalanceOf(db, senderId)))
                  else Done)
    ensures r == SelfPayment || r == BotRecipient ==> db.users == old(db.users) && db.saves == old(db.saves)
    ensures r != SelfPayment && r != BotRecipient ==>
              && senderId in db.users && recipientId in db.users
              && db.users == old(db.users)[senderId := db.users[senderId]][recipientId := db.users[recipientId]]
              && (senderId in old(db.users) ==> db.users[senderId] == old(db.users)[senderId])
              && (recipientId in old(db.users) ==> db.users[recipientId] == old(db.users)[recipientId])
              && (senderId !in old(db.users) ==>
                    fresh(db.users[senderId].economy) && db.users[senderId].economy.NoClaims())
              && (recipientId !in old(db.users) ==>
                    fresh(db.users[recipientId].economy) && db.users[recipientId].economy.NoClaims())
    ensures r == Done ==>
              && BalanceOf(db, senderId) == old(BalanceOf(db, senderId)) - amount
              && BalanceOf(db, recipientId) == old(BalanceOf(db, recipientId)) + amount
              && BalanceOf(db, senderId) >= 0
    ensures r == Done ==>
              BalanceOf(db, senderId) + BalanceOf(db, recipientId) ==
              old(BalanceOf(db, senderId)) + old(BalanceOf(db, recipientId))
    ensures r != Done && senderId in db.users ==> BalanceOf(db, senderId) == old(BalanceOf(db, senderId))
    ensures r != Done && recipientId in db.users ==> BalanceOf(db, recipientId) == old(BalanceOf(db, recipientId))
  {
    if senderId == recipientId {
      return SelfPayment;
    }
    if recipientBot {
      return BotRecipient;
    }
    var s, t := FetchPair(db, senderId, recipientId);
    if s.economy.balance < amount {
      return Insufficient(s.economy.balance);
    }
    s.economy.balance := s.economy.balance - amount;
    t.economy.balance := t.economy.balance + amount;
    db.saves := db.saves + 1;
    return Done;
  }

  // ---------------------------------------------------------------------
  // The shop
  // ---------------------------------------------------------------------

  datatype Kind = RoleItem | Consumable | BuffItem(duration: int)

  datatype Item = Item(id: string, name: string, description: string, price: int, kind: Kind)

  const BuffDuration: int := 86400000

  const Items: seq<Item> := [
    Item("vip_role", "VIP Role", "Get the VIP role in the server", 5000, RoleItem),
    Item("custom_color", "Custom Color Role", "Get a custom colored role", 2500, RoleItem),
    Item("lootbox", "Lootbox", "Open a lootbox for random rewards", 1000, Consumable),
    Item("double_coins", "Double Coins (1 day)", "Earn double coins from work for 1 day", 3000, BuffItem(BuffDuration))
  ]

  lemma PricesPositive()
    ensures forall k :: 0 <= k < |Items| ==> Items[k].price > 0
  {
  }

  /** `shopItems.find` by id. */
  function FindItem(id: string): (r: Option<Item>)
    ensures r.Some? ==> r.value in Items && r.value.id == id
    ensures r.None? <==> forall k :: 0 <= k < |Items| ==> Items[k].id != id
  {
    var i := FindIndex(Items, (it: Item) => it.id == id);
    if i == -1 then None else Some(Items[i])
  }

  /** The role a role item grants; only the two role items have one. */
  function RoleIdFor(id: string): (r: Option<string>)
    ensures r.Some? <==> id == "vip_role" || id == "custom_color"
  {
    if id == "vip_role" then Some("VIP_ROLE_ID")
    else if id == "custom_color" then Some("CUSTOM_COLOR_ROLE_ID")
    else None
  }

  /** Whether a purchase of `item` succeeds once the balance check has passed.
      `roleError` says whether fetching or adding the role threw. */
  function Outcome(item: Item, roleError: bool, reward: int): (r: Reply)
    ensures r == RoleFailed <==> item.kind == RoleItem && RoleIdFor(item.id).Some? && roleError
    ensures r.Opened? <==> item.kind == Consumable && item.id == "lootbox"
    ensures r.Opened? ==> r.reward == reward
    ensures r == Done || r == RoleFailed || r.Opened?
  {
    if item.kind == RoleItem && RoleIdFor(item.id).Some? && roleError then RoleFailed
    else if item.kind == Consumable && item.id == "lootbox" then Opened(reward)
    else Done
  }

  /** `/shop buy`: an unknown item is refused before the user record is fetched;
      a balance below the price is refused with nothing changed; a role error
      returns before the price is taken; a lootbox adds its reward less the
      price; the double-coins buff records its expiry; everything else that
      succeeds takes the price once. */
  method Buy(db: Database.Store, userId: string, itemId: string, now: int, reward: int, roleError: bool)
    returns (r: Reply)
    requires MinLoot <= reward <= MaxLoot
    modifies db`users, db`saves, EconomiesOf(db, {userId})`balance, EconomiesOf(db, {userId})`buffs
    ensures var item := FindItem(itemId);
      r == (if item.None? then UnknownItem
            else if old(BalanceOf(db, userId)) < item.value.price then Insufficient(old(BalanceOf(db, userId)))
            else Outcome(item.value, roleError, reward))
    ensures r == UnknownItem ==> db.users == old(db.users) && db.saves == old(db.saves)
    ensures r != UnknownItem ==>
              && userId in db.users
              && db.users == old(db.users)[userId := db.users[userId]]
              && (userId in old(db.users) ==> db.users[userId] == old(db.users)[userId])
              && (userId !in old(db.users) ==>
                    fresh(db.users[userId].economy) && db.users[userId].economy.lastDaily == None &&
                    db.users[userId].economy.lastWork == None)
    ensures r.Opened? ==>
              BalanceOf(db, userId) == old(BalanceOf(db, userId)) + reward - FindItem(itemId).value.price
    ensures r == Done ==> BalanceOf(db, userId) == old(BalanceOf(db, userId)) - FindItem(itemId).value.price
    ensures r.Opened? || r == Done ==> BalanceOf(db, userId) >= 0
    ensures r == Done && itemId == "double_coins" ==>
              BuffsOf(db, userId) == old(BuffsOf(db, userId))["doubleCoins" := now + BuffDuration]
    ensures !(r == Done && itemId == "double_coins") && r != UnknownItem ==>
              BuffsOf(db, userId) == old(BuffsOf(db, userId))
    ensures r != UnknownItem && !r.Opened? && r != Done ==> BalanceOf(db, userId) == old(BalanceOf(db, userId))
  {
    var found := FindItem(itemId);
    if found.None? {
      return UnknownItem;
    }
    var item := found.value;
    var u := db.GetUser(userId);
    if u.economy.balance < item.price {
      return Insufficient(u.economy.balance);
    }
    r := Purchase(u.economy, item, now, reward, roleError);
    if r != RoleFailed {
      db.saves := db.saves + 1;
    }
  }

  /** The purchase once the balance covers the price, on the buyer's economy
      record: a role error leaves it as it was, a lootbox adds its reward less the
      price, the double-coins buff records its expiry, and every other success
      takes the price once. */
  method Purchase(e: Database.Economy, item: Item, now: int, reward: int, roleError: bool) returns (r: Reply)
    requires item in Items && e.balance >= item.price && MinLoot <= reward <= MaxLoot
    modifies e`balance, e`buffs
    ensures r == Outcome(item, roleError, reward)
    ensures r == RoleFailed ==> e.balance == old(e.balance)
    ensures r.Opened? ==> e.balance == old(e.balance) + reward - item.price
    ensures r == Done ==> e.balance == old(e.balance) - item.price
    ensures e.balance >= 0
    ensures r == Done && item.id == "double_coins" ==> e.buffs == old(e.buffs)["doubleCoins" := now + BuffDuration]
    ensures !(r == Done && item.id == "double_coins") ==> e.buffs == old(e.buffs)
  {
    PricesPositive();
    if item.kind == RoleItem {
      if RoleIdFor(item.id).Some? && roleError {
        return RoleFailed;
      }
    } else if item.kind == Consumable {
      if item.id == "lootbox" {
        e.balance := e.balance + reward - item.price;
        return Opened(reward);
      }
    } else {
      if item.id == "double_coins" {
        e.buffs := e.buffs["doubleCoins" := now + item.kind.duration];
      }
    }
    e.balance := e.balance - item.price;
    return Done;
  }

  /** The autocomplete rule: the item's name contains the typed text, ignoring case. */
  predicate NameMatches(typed: string, item: Item)
  {
    Contains(ToLower(item.name), ToLower(typed))
  }

  /** The autocomplete choices, in shop order. */
  function Autocomplete(typed: string): (r: seq<Item>)
    ensures forall k :: 0 <= k < |r| ==> r[k] in Items && NameMatches(typed, r[k])
    ensures forall k :: 0 <= k < |Items| && NameMatches(typed, Items[k]) ==> Items[k] in r
  {
    Filter(Items, (it: Item) => NameMatches(typed, it))
  }

  /** Typing nothing offers every item. */
  lemma AutocompleteEmpty()
    ensures Autocomplete("") == Items
  {
    forall k | 0 <= k < |Items| ensures NameMatches("", Items[k]) {
      assert OccursAt(ToLower(Items[k].name), "", 0);
    }
    FilterAll(Items, (it: Item) => NameMatches("", it));
  }

  /** The typed text's case does not matter. */
  lemma AutocompleteIgnoresCase(typed: string)
    ensures Autocomplete(ToLower(typed)) == Autocomplete(typed)
  {
    ToLowerIdempotent(typed);
    FilterSame(Items, (it: Item) => NameMatches(ToLower(typed), it), (it: Item) => NameMatches(typed, it));
  }
}
