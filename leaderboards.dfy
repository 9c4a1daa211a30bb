/** The two rankings over all user records: `/leaderboard` by balance
    (commands/economy/leaderboard.js) and `/levels` by total experience
    (commands/leveling/leaderboard.js). The records are taken in the store's
    insertion order, which is an input here. */
module Leaderboards {
  import opened Common
  import opened Sorting

  const TopCount: nat := 10
  const UnknownUser: string := "Unknown User"

  // ---------------------------------------------------------------------
  // The first n of a sorted list
  // ---------------------------------------------------------------------

  /** The first n of the sorted rows and the rest: ordered, together a permutation
      of the rows, nothing in the rest above anything in the first n, and ties in
      input order. */
  lemma TopOfSorted<T>(rows: seq<T>, key: T -> int, n: nat)
    ensures var sorted := SortDesc(rows, key);
      var top := Take(sorted, n);
      var rest := sorted[|top|..];
      && |top| == Min(n, |rows|)
      && SortedDesc(top, key)
      && multiset(top) + multiset(rest) == multiset(rows)
      && (forall i, j :: 0 <= i < |top| && 0 <= j < |rest| ==> key(rest[j]) <= key(top[i]))
      && (forall k :: WithKey(top + rest, key, k) == WithKey(rows, key, k))
  {
    var sorted := SortDesc(rows, key);
    SortDescCorrect(rows, key);
    var top := Take(sorted, n);
    var rest := sorted[|top|..];
    assert top + rest == sorted;
    SplitBounded(sorted, key, |top|);
    forall k ensures WithKey(top + rest, key, k) == WithKey(rows, key, k) {
      SortDescStable(rows, key, k);
    }
  }

  /** Splitting a sorted list: nothing after the cut is above anything before it. */
  lemma SplitBounded<T>(sorted: seq<T>, key: T -> int, m: nat)
    requires SortedDesc(sorted, key) && m <= |sorted|
    ensures forall i, j :: 0 <= i < m && 0 <= j < |sorted| - m ==> key(sorted[m..][j]) <= key(sorted[..m][i])
  {
    forall i, j | 0 <= i < m && 0 <= j < |sorted| - m ensures key(sorted[m..][j]) <= key(sorted[..m][i]) {
      assert sorted[..m][i] == sorted[i] && sorted[m..][j] == sorted[m + j];
    }
  }

  // ---------------------------------------------------------------------
  // Economy leaderboard
  // ---------------------------------------------------------------------

  /** A user record as the economy ranking reads it: None when the record has no
      economy balance. */
  datatype EconomyRecord = EconomyRecord(id: string, balance: Option<int>)

  datatype BalanceRow = BalanceRow(id: string, balance: int)

  /** `x || 0`, as in `data.economy?.balance || 0` and `data.xp?.totalXp || 0`. */
  function OrZero(b: Option<int>): (n: int)
    ensures b.None? ==> n == 0
    ensures b.Some? ==> n == b.value
  {
    if b.Some? && b.value != 0 then b.value else 0
  }

  function BalanceKey(r: BalanceRow): int { r.balance }

  function BalanceRows(records: seq<EconomyRecord>): (rows: seq<BalanceRow>)
    ensures |rows| == |records|
    ensures forall i :: 0 <= i < |records| ==>
              rows[i] == BalanceRow(records[i].id, OrZero(records[i].balance))
  {
    seq(|records|, i requires 0 <= i < |records| => BalanceRow(records[i].id, OrZero(records[i].balance)))
  }

  /** The shown rows: sorted by balance, largest first, then the first ten. */
  function EconomyTop(records: seq<EconomyRecord>): seq<BalanceRow>
  {
    Take(SortDesc(BalanceRows(records), BalanceKey), TopCount)
  }

  /** The rows left off the board. */
  function EconomyRest(records: seq<EconomyRecord>): seq<BalanceRow>
  {
    var sorted := SortDesc(BalanceRows(records), BalanceKey);
    sorted[|Take(sorted, TopCount)|..]
  }

  /** The board shows min(10, n) rows in non-increasing balance; together with the
      rows left off it is exactly the users' rows; nobody left off has more than
      anybody shown; and users with equal balances keep their store order. */
  lemma EconomyTopCorrect(records: seq<EconomyRecord>)
    ensures |EconomyTop(records)| == Min(TopCount, |records|)
    ensures SortedDesc(EconomyTop(records), BalanceKey)
    ensures multiset(EconomyTop(records)) + multiset(EconomyRest(records)) == multiset(BalanceRows(records))
    ensures forall i, j :: 0 <= i < |EconomyTop(records)| && 0 <= j < |EconomyRest(records)| ==>
              EconomyRest(records)[j].balance <= EconomyTop(records)[i].balance
    ensures forall k :: WithKey(EconomyTop(records) + EconomyRest(records), BalanceKey, k) ==
                        WithKey(BalanceRows(records), BalanceKey, k)
  {
    TopOfSorted(BalanceRows(records), BalanceKey, TopCount);
  }

  datatype BalanceEntry = BalanceEntry(username: string, balance: int)

  /** The fetch loop: `fetched[i]` is the username of the i-th shown row, or None
      when the fetch failed. */
  method EconomyBoard(top: seq<BalanceRow>, fetched: seq<Option<string>>) returns (board: seq<BalanceEntry>)
    requires |fetched| == |top|
    ensures |board| == |top|
    ensures forall i :: 0 <= i < |top| ==>
              board[i].balance == top[i].balance &&
              board[i].username == (if fetched[i].Some? then fetched[i].value else UnknownUser)
  {
    board := [];
    for i := 0 to |top|
      invariant |board| == i
      invariant forall k :: 0 <= k < i ==>
                  board[k].balance == top[k].balance &&
                  board[k].username == (if fetched[k].Some? then fetched[k].value else UnknownUser)
    {
      if fetched[i].Some? {
        board := board + [BalanceEntry(fetched[i].value, top[i].balance)];
      } else {
        board := board + [BalanceEntry(UnknownUser, top[i].balance)];
      }
    }
  }

  // ---------------------------------------------------------------------
  // Level leaderboard
  // ---------------------------------------------------------------------

  /** A user record as the level ranking reads it: None for missing fields. */
  datatype XpRecord = XpRecord(id: string, level: Option<int>, totalXp: Option<int>)

  datatype XpRow = XpRow(id: string, level: int, totalXp: int)

  /** `data.xp?.level || 1`: a missing or zero level shows as 1. */
  function LevelOrOne(l: Option<int>): (n: int)
    ensures l.None? || l.value == 0 ==> n == 1
    ensures l.Some? && l.value != 0 ==> n == l.value
  {
    if l.Some? && l.value != 0 then l.value else 1
  }

  function XpKey(r: XpRow): int { r.totalXp }

  function XpRows(records: seq<XpRecord>): (rows: seq<XpRow>)
    ensures |rows| == |records|
    ensures forall i :: 0 <= i < |records| ==>
              rows[i] == XpRow(records[i].id, LevelOrOne(records[i].level), OrZero(records[i].totalXp))
  {
    seq(|records|, i requires 0 <= i < |records| =>
      XpRow(records[i].id, LevelOrOne(records[i].level), OrZero(records[i].totalXp)))
  }

  function LevelTop(records: seq<XpRecord>): seq<XpRow>
  {
    Take(SortDesc(XpRows(records), XpKey), TopCount)
  }

  function LevelRest(records: seq<XpRecord>): seq<XpRow>
  {
    var sorted := SortDesc(XpRows(records), XpKey);
    sorted[|Take(sorted, TopCount)|..]
  }

  /** As for balances: at most ten rows in non-increasing total experience, the
      best ones, ties in store order. */
  lemma LevelTopCorrect(records: seq<XpRecord>)
    ensures |LevelTop(records)| == Min(TopCount, |records|)
    ensures SortedDesc(LevelTop(records), XpKey)
    ensures multiset(LevelTop(records)) + multiset(LevelRest(records)) == multiset(XpRows(records))
    ensures forall i, j :: 0 <= i < |LevelTop(records)| && 0 <= j < |LevelRest(records)| ==>
              LevelRest(records)[j].totalXp <= LevelTop(records)[i].totalXp
    ensures forall k :: WithKey(LevelTop(records) + LevelRest(records), XpKey, k) ==
                        WithKey(XpRows(records), XpKey, k)
  {
    TopOfSorted(XpRows(records), XpKey, TopCount);
  }

  datatype XpEntry = XpEntry(username: string, level: int, totalXp: int)

  method LevelBoard(top: seq<XpRow>, fetched: seq<Option<string>>) returns (board: seq<XpEntry>)
    requires |fetched| == |top|
    ensures |board| == |top|
    ensures forall i :: 0 <= i < |top| ==>
              board[i].level == top[i].level && board[i].totalXp == top[i].totalXp &&
              board[i].username == (if fetched[i].Some? then fetched[i].value else UnknownUser)
  {
    board := [];
    for i := 0 to |top|
      invariant |board| == i
      invariant forall k :: 0 <= k < i ==>
                  board[k].level == top[k].level && board[k].totalXp == top[k].totalXp &&
                  board[k].username == (if fetched[k].Some? then fetched[k].value else UnknownUser)
    {
      var name := if fetched[i].Some? then fetched[i].value else UnknownUser;
      board := board + [XpEntry(name, top[i].level, top[i].totalXp)];
    }
  }
}
