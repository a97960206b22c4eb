/**
 * The file-backed `EconomyService` of `services/economy.py`: an in-memory
 * dictionary from user id to a record with a nested stats dictionary, checked
 * debit and unconditional credit, `record_game_result` with the reset-then-step
 * streak and the five-entry achievement table, the top-10 leaderboard and quest
 * assignment.
 */
module JsonEconomy {
  import opened Basics
  import opened Progression

  /** The nested `stats` dictionary; `maxRiskWin` is `None` when the key is absent. */
  datatype Stats = Stats(wins: int, losses: int, streak: int, maxRiskWin: Option<real>)

  /** One value of `self.data`. */
  datatype UserData = UserData(balance: int, stats: Stats, achievements: seq<string>, activeQuest: Option<Quest>)

  /** The record `get_user_data` creates for an unknown id. */
  const NEW_DATA: UserData := UserData(10000, Stats(0, 0, 0, Some(1.0)), [], None)

  /** The achievement table as the source writes it: `high_roller` reads a missing `max_risk_win` as 0. */
  const ACHIEVEMENTS_AS_WRITTEN: seq<Achievement> := [
    Achievement("first_win", WinsAtLeast(1), 1000),
    Achievement("lucky_streak_3", StreakAtLeast(3), 5000),
    Achievement("lucky_streak_5", StreakAtLeast(5), 20000),
    Achievement("bad_luck_3", LossStreakAtLeast(3), 3000),
    Achievement("high_roller", MaxRiskWinAtMost(0.1, 0.0), 50000)
  ]

  /**
   * The table the model uses: `high_roller` reads a missing `max_risk_win` as 1.0,
   * the default the stats update itself uses, so it needs a recorded win at risk <= 0.1.
   */
  const ACHIEVEMENTS: seq<Achievement> := [
    Achievement("first_win", WinsAtLeast(1), 1000),
    Achievement("lucky_streak_3", StreakAtLeast(3), 5000),
    Achievement("lucky_streak_5", StreakAtLeast(5), 20000),
    Achievement("bad_luck_3", LossStreakAtLeast(3), 3000),
    Achievement("high_roller", MaxRiskWinAtMost(0.1, 1.0), 50000)
  ]

  const HIGH_ROLLER: string := "high_roller"

  function ViewOf(s: Stats): StatsView {
    StatsView(s.wins, s.streak, s.maxRiskWin)
  }

  /** The record invariant every record `get_user_data` creates and every update keeps. */
  predicate ValidData(d: UserData) {
    && d.balance >= 0
    && d.stats.wins >= 0 && d.stats.losses >= 0
    && (d.stats.maxRiskWin.Some? ==> 0.0 <= d.stats.maxRiskWin.value <= 1.0)
    && NoDup(d.achievements)
    && (d.activeQuest.Some? ==> WellFormedQuest(d.activeQuest.value))
  }

  lemma NewDataValid()
    ensures ValidData(NEW_DATA)
  {
  }

  // ---------------------------------------------------------------- streak

  /** The streak update of this service: a run of the other sign is reset to 0, then the streak steps. */
  function ResetThenStep(streak: int, won: bool): int {
    if won then (if streak < 0 then 0 else streak) + 1
    else (if streak > 0 then 0 else streak) - 1
  }

  /** Reset-then-step is the same function as the database service's `max(1, s + 1)` / `min(-1, s - 1)`. */
  lemma ResetThenStepIsStreakAfter(streak: int, won: bool)
    ensures ResetThenStep(streak, won) == StreakAfter(streak, won)
  {
  }

  // ---------------------------------------------------------------- record_game_result

  /** The stats update at the start of `record_game_result`. */
  function StatsAfter(s: Stats, won: bool, risk: real): (r: Stats)
    ensures won ==> r.wins == s.wins + 1 && r.losses == s.losses
    ensures !won ==> r.losses == s.losses + 1 && r.wins == s.wins && r.maxRiskWin == s.maxRiskWin
    ensures r.streak == StreakAfter(s.streak, won)
    // the lowest winning risk only ever falls, and a win always leaves the key present
    ensures r.maxRiskWin.GetOr(1.0) <= s.maxRiskWin.GetOr(1.0)
    ensures won ==> r.maxRiskWin == Some(MinReal(risk, s.maxRiskWin.GetOr(1.0)))
                      || (risk >= 1.0 && r.maxRiskWin == s.maxRiskWin)
    ensures s.maxRiskWin.Some? ==> r.maxRiskWin.Some?
  {
    ResetThenStepIsStreakAfter(s.streak, won);
    if won then
      s.(wins := s.wins + 1, streak := ResetThenStep(s.streak, true),
         maxRiskWin := if risk < s.maxRiskWin.GetOr(1.0) then Some(risk) else s.maxRiskWin)
    else
      s.(losses := s.losses + 1, streak := ResetThenStep(s.streak, false))
  }

  /** A record and the notifications produced while updating it. */
  datatype DataRecord = DataRecord(data: UserData, notes: seq<Notification>)

  /**
   * `record_game_result(user_id, won, risk)` over an achievement table: the stats
   * update, one pass over the table on the updated stats, then the quest step.
   */
  function RecordedGameWith(defs: seq<Achievement>, d: UserData, won: bool, risk: real): (r: DataRecord)
    ensures r.data.stats == StatsAfter(d.stats, won, risk)
  {
    var s := StatsAfter(d.stats, won, risk);
    var g := GrantAll(defs, ViewOf(s), d.achievements, d.balance);
    var q := QuestAfter(d.activeQuest, won, g.balance);
    DataRecord(UserData(q.balance, s, g.achievements, q.quest),
               g.notes + (if q.note.Some? then [q.note.value] else []))
  }

  /**
   * On a record that has the `max_risk_win` key the two tables make the same pass: their
   * `high_roller` defaults differ only for a missing key, and the stats update keeps the key.
   */
  lemma TablesAgreeOnStoredRecords(d: UserData, won: bool, risk: real)
    requires d.stats.maxRiskWin.Some?
    ensures RecordedGameWith(ACHIEVEMENTS_AS_WRITTEN, d, won, risk) == RecordedGameWith(ACHIEVEMENTS, d, won, risk)
  {
    var s := StatsAfter(d.stats, won, risk);
    GrantAllAgrees(ACHIEVEMENTS_AS_WRITTEN, ACHIEVEMENTS, ViewOf(s), d.achievements, d.balance);
  }

  /**
   * `record_game_result` with the table the model uses. Every record the service
   * creates has the `max_risk_win` key, and on those it is the source's own table.
   */
  function RecordedGame(d: UserData, won: bool, risk: real): (r: DataRecord)
    ensures r.data.stats == StatsAfter(d.stats, won, risk)
    ensures d.stats.maxRiskWin.Some? ==> r == RecordedGameWith(ACHIEVEMENTS_AS_WRITTEN, d, won, risk)
  {
    if d.stats.maxRiskWin.Some? then
      TablesAgreeOnStoredRecords(d, won, risk);
      RecordedGameWith(ACHIEVEMENTS, d, won, risk)
    else
      RecordedGameWith(ACHIEVEMENTS, d, won, risk)
  }

  /**
   * The record invariant survives a game: the balance stays non-negative (the quest
   * penalty is floored at 0), achievements stay duplicate-free and only grow, and an
   * active quest keeps `current < target`.
   */
  lemma RecordKeepsValid(d: UserData, won: bool, risk: real)
    requires ValidData(d) && 0.0 <= risk <= 1.0
    ensures var v := RecordedGame(d, won, risk).data;
            && ValidData(v)
            && v.achievements[..|d.achievements|] == d.achievements
  {
    var s := StatsAfter(d.stats, won, risk);
    GrantKeepsAndAppends(ACHIEVEMENTS, ViewOf(s), d.achievements, d.balance);
    GrantNeverLowers(ACHIEVEMENTS, ViewOf(s), d.achievements, d.balance);
    var g := GrantAll(ACHIEVEMENTS, ViewOf(s), d.achievements, d.balance);
    QuestAfterPreserves(d.activeQuest, won, g.balance);
  }

  /** Each newly added id credits its reward exactly once, and every condition that holds is granted. */
  lemma RecordCreditsOnce(d: UserData, won: bool, risk: real)
    ensures var s := StatsAfter(d.stats, won, risk);
            var g := GrantAll(ACHIEVEMENTS, ViewOf(s), d.achievements, d.balance);
            && |g.notes| == |g.achievements| - |d.achievements|
            && g.balance == d.balance + RewardTotal(g.notes)
            && (forall e :: e in ACHIEVEMENTS && Holds(e.cond, ViewOf(s)) ==> e.id in g.achievements)
  {
    var s := StatsAfter(d.stats, won, risk);
    GrantCreditsOnce(ACHIEVEMENTS, ViewOf(s), d.achievements, d.balance);
    GrantComplete(ACHIEVEMENTS, ViewOf(s), d.achievements, d.balance);
  }

  /**
   * `high_roller` is granted only on a record whose lowest winning risk is at most
   * 0.1: either this very game was a win at risk <= 0.1, or such a win was recorded
   * before.
   */
  lemma HighRollerNeedsRiskyWin(d: UserData, won: bool, risk: real)
    requires HIGH_ROLLER !in d.achievements
    requires HIGH_ROLLER in RecordedGame(d, won, risk).data.achievements
    ensures (won && risk <= 0.1) || (d.stats.maxRiskWin.Some? && d.stats.maxRiskWin.value <= 0.1)
  {
    var s := StatsAfter(d.stats, won, risk);
    GrantOnlyHolding(ACHIEVEMENTS, ViewOf(s), d.achievements, d.balance);
    var e :| e in ACHIEVEMENTS && e.id == HIGH_ROLLER && Holds(e.cond, ViewOf(s));
    assert e == ACHIEVEMENTS[4];
  }

  /**
   * As written, a stored record whose stats lack `max_risk_win` is granted
   * `high_roller` and 50000 coins on a loss.
   */
  lemma HighRollerOnLegacyLoss()
    ensures var d := UserData(0, Stats(0, 0, 0, None), [], None);
            var r := RecordedGameWith(ACHIEVEMENTS_AS_WRITTEN, d, false, 0.5);
            r.data.achievements == [HIGH_ROLLER] && r.data.balance == 50000
  {
    var v := ViewOf(StatsAfter(Stats(0, 0, 0, None), false, 0.5));
    assert v == StatsView(0, -1, None);
    assert GrantAll(ACHIEVEMENTS_AS_WRITTEN[4..], v, [], 0) == Granted([HIGH_ROLLER], 50000, [AchievementUnlocked(HIGH_ROLLER, 50000)]);
    assert GrantAll(ACHIEVEMENTS_AS_WRITTEN[3..], v, [], 0) == GrantAll(ACHIEVEMENTS_AS_WRITTEN[4..], v, [], 0);
    assert GrantAll(ACHIEVEMENTS_AS_WRITTEN[2..], v, [], 0) == GrantAll(ACHIEVEMENTS_AS_WRITTEN[3..], v, [], 0);
    assert GrantAll(ACHIEVEMENTS_AS_WRITTEN[1..], v, [], 0) == GrantAll(ACHIEVEMENTS_AS_WRITTEN[2..], v, [], 0);
  }

  /** The same legacy record is granted nothing on a loss under the table the model uses. */
  lemma HighRollerNotOnLegacyLoss()
    ensures var d := UserData(0, Stats(0, 0, 0, None), [], None);
            var r := RecordedGame(d, false, 0.5);
            r.data.achievements == [] && r.data.balance == 0
  {
    var v := ViewOf(StatsAfter(Stats(0, 0, 0, None), false, 0.5));
    assert v == StatsView(0, -1, None);
    assert GrantAll(ACHIEVEMENTS[4..], v, [], 0) == Granted([], 0, []);
    assert GrantAll(ACHIEVEMENTS[3..], v, [], 0) == GrantAll(ACHIEVEMENTS[4..], v, [], 0);
    assert GrantAll(ACHIEVEMENTS[2..], v, [], 0) == GrantAll(ACHIEVEMENTS[3..], v, [], 0);
    assert GrantAll(ACHIEVEMENTS[1..], v, [], 0) == GrantAll(ACHIEVEMENTS[2..], v, [], 0);
  }

  // ---------------------------------------------------------------- assign_quest

  /** `assign_quest` on a record: nothing when a quest is active, else a fresh quest with the drawn target. */
  function QuestAssigned(d: UserData, target: int): (r: (UserData, Option<Quest>))
    requires 3 <= target <= 5
    ensures d.activeQuest.Some? ==> r == (d, None)
    ensures d.activeQuest.None? ==> r.1 == Some(NewQuest(target)) && r.0 == d.(activeQuest := r.1)
    ensures ValidData(d) ==> ValidData(r.0)
  {
    if d.activeQuest.Some? then (d, None)
    else (d.(activeQuest := Some(NewQuest(target))), Some(NewQuest(target)))
  }

  // ---------------------------------------------------------------- leaderboard

  /** One `(uid, balance)` pair. */
  datatype Ranked = Ranked(uid: int, balance: int)

  predicate SortedDesc(s: seq<Ranked>) {
    forall i, j :: 0 <= i < j < |s| ==> s[i].balance >= s[j].balance
  }

  /** Insert `x` before the first entry it is not poorer than (ties keep earlier entries first). */
  function Insert(x: Ranked, s: seq<Ranked>): (r: seq<Ranked>)
    ensures |r| == |s| + 1
  {
    if s == [] || x.balance >= s[0].balance then [x] + s
    else [s[0]] + Insert(x, s[1..])
  }

  /** `sorted(items, key=balance, reverse=True)`, as an insertion sort. */
  function SortDesc(items: seq<Ranked>): (r: seq<Ranked>)
    ensures |r| == |items|
  {
    if items == [] then [] else Insert(items[0], SortDesc(items[1..]))
  }

  lemma {:induction false} InsertPermutes(x: Ranked, s: seq<Ranked>)
    ensures multiset(Insert(x, s)) == multiset(s) + multiset{x}
  {
    if s != [] && x.balance < s[0].balance {
      InsertPermutes(x, s[1..]);
      assert s == [s[0]] + s[1..];
    }
  }

  /** The head of `Insert(x, s)` is `x` or the old head. */
  lemma InsertHead(x: Ranked, s: seq<Ranked>)
    requires s != []
    ensures Insert(x, s)[0] == x || Insert(x, s)[0] == s[0]
  {
  }

  lemma {:induction false} InsertSorted(x: Ranked, s: seq<Ranked>)
    requires SortedDesc(s)
    ensures SortedDesc(Insert(x, s))
  {
    if s != [] && x.balance < s[0].balance {
      var tail := s[1..];
      assert SortedDesc(tail);
      InsertSorted(x, tail);
      var rest := Insert(x, tail);
      if tail != [] {
        InsertHead(x, tail);
      }
      assert s[0].balance >= rest[0].balance;
      assert Insert(x, s) == [s[0]] + rest;
    }
  }

  lemma {:induction false} SortDescSortsAndPermutes(items: seq<Ranked>)
    ensures SortedDesc(SortDesc(items))
    ensures multiset(SortDesc(items)) == multiset(items)
  {
    if items != [] {
      SortDescSortsAndPermutes(items[1..]);
      InsertSorted(items[0], SortDesc(items[1..]));
      InsertPermutes(items[0], SortDesc(items[1..]));
      assert items == [items[0]] + items[1..];
    }
  }

  /** `get_leaderboard` over the dictionary's items in insertion order: sort, then keep the first 10. */
  function Leaderboard(items: seq<Ranked>): (r: seq<Ranked>)
    ensures |r| == Min(10, |items|)
  {
    SortDesc(items)[..Min(10, |items|)]
  }

  /** A prefix of a descending list is descending, part of the list, and no poorer than what it leaves out. */
  lemma SortedPrefix(s: seq<Ranked>, n: nat)
    requires SortedDesc(s) && n <= |s|
    ensures SortedDesc(s[..n])
    ensures multiset(s[..n]) <= multiset(s)
    ensures forall x, y :: x in s && x !in s[..n] && y in s[..n] ==> x.balance <= y.balance
  {
    assert s == s[..n] + s[n..];
    assert multiset(s) == multiset(s[..n]) + multiset(s[n..]);
    forall x, y | x in s && x !in s[..n] && y in s[..n] ensures x.balance <= y.balance {
      var j :| 0 <= j < |s| && s[j] == x;
      var i :| 0 <= i < n && s[..n][i] == y;
      assert j >= n;
    }
  }

  /**
   * The leaderboard holds at most 10 entries, in non-increasing balance order, each
   * taken from the items, and no item left out is richer than any item listed.
   */
  lemma LeaderboardIsTop(items: seq<Ranked>)
    ensures |Leaderboard(items)| <= 10
    ensures SortedDesc(Leaderboard(items))
    ensures multiset(Leaderboard(items)) <= multiset(items)
    ensures forall x, y :: x in items && x !in Leaderboard(items) && y in Leaderboard(items) ==> x.balance <= y.balance
  {
    var s := SortDesc(items);
    SortDescSortsAndPermutes(items);
    SortedPrefix(s, Min(10, |items|));
    assert forall x :: x in items ==> x in multiset(s);
  }

  /** The `(uid, balance)` pairs of `ids`, in order. */
  function RankedItems(ids: seq<int>, data: map<int, UserData>): (r: seq<Ranked>)
    requires forall i :: 0 <= i < |ids| ==> ids[i] in data
    ensures |r| == |ids|
    ensures forall i :: 0 <= i < |r| ==> r[i] == Ranked(ids[i], data[ids[i]].balance)
  {
    seq(|ids|, i requires 0 <= i < |ids| => Ranked(ids[i], data[ids[i]].balance))
  }

  // ---------------------------------------------------------------- the data file

  /** The record `get_user_data` works on: the stored one, or a fresh one. */
  function Lookup(data: map<int, UserData>, uid: int): UserData {
    if uid in data then data[uid] else NEW_DATA
  }

  /** The insertion order once `uid` has been looked up: a new id goes last. */
  function Touched(order: seq<int>, data: map<int, UserData>, uid: int): seq<int> {
    if uid in data then order else order + [uid]
  }

  /** Whether `remove_balance(uid, amount)` goes ahead. */
  predicate Funds(data: map<int, UserData>, uid: int, amount: int) {
    Lookup(data, uid).balance >= amount
  }

  /** The data after `add_balance(uid, amount)`: the balance grows by `amount`, nothing else changes. */
  function AfterAdd(data: map<int, UserData>, uid: int, amount: int): (r: map<int, UserData>)
    ensures r.Keys == data.Keys + {uid}
    ensures r[uid] == Lookup(data, uid).(balance := r[uid].balance)
    ensures r[uid].balance == Lookup(data, uid).balance + amount
    ensures forall k :: k in data && k != uid ==> r[k] == data[k]
  {
    data[uid := Lookup(data, uid).(balance := Lookup(data, uid).balance + amount)]
  }

  /** The data after `remove_balance(uid, amount)`: debited when funded, otherwise only created. */
  function AfterRemove(data: map<int, UserData>, uid: int, amount: int): (r: map<int, UserData>)
    ensures r.Keys == data.Keys + {uid}
    ensures r[uid] == Lookup(data, uid).(balance := r[uid].balance)
    ensures Funds(data, uid, amount) ==> r[uid].balance == Lookup(data, uid).balance - amount
    ensures !Funds(data, uid, amount) ==> r[uid] == Lookup(data, uid)
    ensures forall k :: k in data && k != uid ==> r[k] == data[k]
  {
    var d := Lookup(data, uid);
    data[uid := if Funds(data, uid, amount) then d.(balance := d.balance - amount) else d]
  }

  /** The data after `record_game_result(uid, won, risk)`: only `uid`'s record changes, and its stats take the game. */
  function AfterRecord(data: map<int, UserData>, uid: int, won: bool, risk: real): (r: map<int, UserData>)
    ensures r.Keys == data.Keys + {uid}
    ensures r[uid].stats == StatsAfter(Lookup(data, uid).stats, won, risk)
    ensures forall k :: k in data && k != uid ==> r[k] == data[k]
  {
    data[uid := RecordedGame(Lookup(data, uid), won, risk).data]
  }

  /**
   * The data after `assign_quest(uid)` with the drawn target: the record then has a quest,
   * an existing one is kept, and the balance, stats and achievements are untouched.
   */
  function AfterAssign(data: map<int, UserData>, uid: int, target: int): (r: map<int, UserData>)
    requires 3 <= target <= 5
    ensures r.Keys == data.Keys + {uid}
    ensures r[uid] == Lookup(data, uid).(activeQuest := r[uid].activeQuest) && r[uid].activeQuest.Some?
    ensures Lookup(data, uid).activeQuest.Some? ==> r[uid] == Lookup(data, uid)
    ensures forall k :: k in data && k != uid ==> r[k] == data[k]
  {
    data[uid := QuestAssigned(Lookup(data, uid), target).0]
  }

  /** A funded debit followed by a credit of the same amount restores the balance. */
  lemma RemoveThenAddRestores(data: map<int, UserData>, uid: int, amount: int)
    requires Funds(data, uid, amount)
    ensures AfterAdd(AfterRemove(data, uid, amount), uid, amount) == data[uid := Lookup(data, uid)]
  {
    assert Lookup(AfterRemove(data, uid, amount), uid).balance == Lookup(data, uid).balance - amount;
  }

  /** `remove_balance` never takes a non-negative balance below zero, and every other record is untouched. */
  lemma RemoveKeepsBalanceNonNegative(data: map<int, UserData>, uid: int, amount: int)
    requires Lookup(data, uid).balance >= 0
    ensures AfterRemove(data, uid, amount)[uid].balance >= 0
    ensures AfterRemove(data, uid, amount)[uid].balance
            == if Funds(data, uid, amount) then Lookup(data, uid).balance - amount else Lookup(data, uid).balance
    ensures forall k :: k in data && k != uid ==> AfterRemove(data, uid, amount)[k] == data[k]
  {
  }

  // ---------------------------------------------------------------- the service

  /** `order` lists each id of `data` exactly once, and every record has the `max_risk_win` key. */
  ghost predicate ValidStore(data: map<int, UserData>, order: seq<int>) {
    && NoDup(order)
    && (forall k :: k in data ==> k in order)
    && (forall i :: 0 <= i < |order| ==> order[i] in data)
    && (forall k :: k in data ==> data[k].stats.maxRiskWin.Some?)
  }

  /** Replacing a stored record by one that keeps the `max_risk_win` key keeps the store valid. */
  lemma ReplaceKeepsValid(data: map<int, UserData>, order: seq<int>, uid: int, d: UserData)
    requires ValidStore(data, order) && uid in data && d.stats.maxRiskWin.Some?
    ensures ValidStore(data[uid := d], order)
  {
  }

  /** `EconomyService` over `self.data`; `order` is the dictionary's insertion order of ids. */
  class EconomyService {
    var data: map<int, UserData>
    var order: seq<int>

    /** `order` lists each id of `data` exactly once, and every record has the `max_risk_win` key. */
    ghost predicate Valid()
      reads this
    {
      ValidStore(data, order)
    }

    /** A service whose data file was absent. */
    constructor ()
      ensures Valid() && data == map[] && order == []
    {
      data := map[];
      order := [];
    }

    /** `self.data.items()` as `(uid, balance)` pairs, in insertion order. */
    function Items(): (r: seq<Ranked>)
      reads this
      requires Valid()
      ensures |r| == |order|
      ensures forall i :: 0 <= i < |r| ==> r[i] == Ranked(order[i], data[order[i]].balance)
    {
      RankedItems(order, data)
    }

    /** `get_leaderboard`. */
    function GetLeaderboard(): (r: seq<Ranked>)
      reads this
      requires Valid()
      ensures |r| <= 10 && SortedDesc(r)
      ensures forall x :: x in r ==> x.uid in data && x.balance == data[x.uid].balance
    {
      LeaderboardIsTop(Items());
      var r := Leaderboard(Items());
      assert forall x :: x in r ==> x in multiset(Items());
      r
    }

    /** `get_user_data`: the stored record, or a fresh one, stored and appended to the order. */
    method GetUserData(userId: int) returns (d: UserData)
      requires Valid()
      modifies this
      ensures Valid()
      ensures d == Lookup(old(data), userId)
      ensures data == old(data)[userId := d]
      ensures order == Touched(old(order), old(data), userId)
    {
      if userId !in data {
        data := data[userId := NEW_DATA];
        order := order + [userId];
      }
      d := data[userId];
    }

    method GetBalance(userId: int) returns (balance: int)
      requires Valid()
      modifies this
      ensures Valid()
      ensures balance == Lookup(old(data), userId).balance
      ensures data == old(data)[userId := Lookup(old(data), userId)]
      ensures order == Touched(old(order), old(data), userId)
    {
      var d := GetUserData(userId);
      balance := d.balance;
    }

    /** `add_balance`: credit unconditionally. */
    method AddBalance(userId: int, amount: int)
      requires Valid()
      modifies this
      ensures Valid()
      ensures data == AfterAdd(old(data), userId, amount)
      ensures order == Touched(old(order), old(data), userId)
    {
      var d := GetUserData(userId);
      ReplaceKeepsValid(data, order, userId, d.(balance := d.balance + amount));
      data := data[userId := d.(balance := d.balance + amount)];
    }

    /** `remove_balance`: debit only when the balance covers the amount. */
    method RemoveBalance(userId: int, amount: int) returns (ok: bool)
      requires Valid()
      modifies this
      ensures Valid()
      ensures ok <==> Funds(old(data), userId, amount)
      ensures data == AfterRemove(old(data), userId, amount)
      ensures order == Touched(old(order), old(data), userId)
    {
      var d := GetUserData(userId);
      if d.balance < amount {
        return false;
      }
      ReplaceKeepsValid(data, order, userId, d.(balance := d.balance - amount));
      data := data[userId := d.(balance := d.balance - amount)];
      return true;
    }

    /** `record_game_result`, mutating the record step by step as the service does. */
    method RecordGameResult(userId: int, won: bool, risk: real) returns (notes: seq<Notification>)
      requires Valid()
      modifies this
      ensures Valid()
      ensures data == AfterRecord(old(data), userId, won, risk)
      ensures notes == RecordedGame(Lookup(old(data), userId), won, risk).notes
      // on every record the service holds, this is the pass over the source's own table
      ensures RecordedGame(Lookup(old(data), userId), won, risk)
              == RecordedGameWith(ACHIEVEMENTS_AS_WRITTEN, Lookup(old(data), userId), won, risk)
      ensures order == Touched(old(order), old(data), userId)
    {
      var d := GetUserData(userId);
      var recorded;
      recorded, notes := RecordSteps(d, won, risk);
      ReplaceKeepsValid(data, order, userId, recorded);
      data := data[userId := recorded];
    }

    /** `assign_quest` with the drawn `randint(3, 5)` passed in. */
    method AssignQuest(userId: int, target: int) returns (quest: Option<Quest>)
      requires Valid() && 3 <= target <= 5
      modifies this
      ensures Valid()
      ensures data == AfterAssign(old(data), userId, target)
      ensures quest == QuestAssigned(Lookup(old(data), userId), target).1
      ensures order == Touched(old(order), old(data), userId)
    {
      var d := GetUserData(userId);
      if d.activeQuest.Some? {
        return None;
      }
      var q := Quest(WIN_STREAK, target, 0, target * 10000, target * 2000);
      ReplaceKeepsValid(data, order, userId, d.(activeQuest := Some(q)));
      data := data[userId := d.(activeQuest := Some(q))];
      return Some(q);
    }

    /** `get_quest`. */
    method GetQuest(userId: int) returns (quest: Option<Quest>)
      requires Valid()
      modifies this
      ensures Valid()
      ensures quest == Lookup(old(data), userId).activeQuest
      ensures data == old(data)[userId := Lookup(old(data), userId)]
      ensures order == Touched(old(order), old(data), userId)
    {
      var d := GetUserData(userId);
      quest := d.activeQuest;
    }
  }

  /** The body of `record_game_result` on one record: stats, then achievements, then the quest. */
  method RecordSteps(d: UserData, won: bool, risk: real) returns (r: UserData, notes: seq<Notification>)
    ensures DataRecord(r, notes) == RecordedGame(d, won, risk)
  {
    var stats := UpdateStats(d.stats, won, risk);
    var achievements, balance, achNotes := GrantAchievements(ACHIEVEMENTS, ViewOf(stats), d.achievements, d.balance);
    notes := achNotes;
    var q := QuestStep(d.activeQuest, won, balance);
    notes := notes + (if q.note.Some? then [q.note.value] else []);
    r := UserData(q.balance, stats, achievements, q.quest);
  }

  /** The stats update of `record_game_result`, as the source writes it: reset, then step. */
  method UpdateStats(s: Stats, won: bool, risk: real) returns (r: Stats)
    ensures r == StatsAfter(s, won, risk)
  {
    r := s;
    if won {
      r := r.(wins := r.wins + 1);
      if r.streak < 0 { r := r.(streak := 0); }
      r := r.(streak := r.streak + 1);
      if risk < r.maxRiskWin.GetOr(1.0) {
        r := r.(maxRiskWin := Some(risk));
      }
    } else {
      r := r.(losses := r.losses + 1);
      if r.streak > 0 { r := r.(streak := 0); }
      r := r.(streak := r.streak - 1);
    }
  }

  /** The quest step of `record_game_result`: the penalty is subtracted, then a negative balance reset to 0. */
  method QuestStep(quest: Option<Quest>, won: bool, balance: int) returns (r: QuestUpdate)
    ensures r == QuestAfter(quest, won, balance)
  {
    r := QuestUpdate(quest, balance, None);
    if quest.Some? && quest.value.kind == WIN_STREAK {
      if won {
        var q := quest.value.(current := quest.value.current + 1);
        r := QuestUpdate(Some(q), balance, None);
        if q.current >= q.target {
          r := QuestUpdate(None, balance + q.reward, Some(QuestCompleted(q.target, q.reward)));
        }
      } else {
        var b := balance - quest.value.penalty;
        if b < 0 {
          b := 0;
        }
        r := QuestUpdate(None, b, Some(QuestFailed(quest.value.target, quest.value.penalty)));
      }
    }
  }
}
