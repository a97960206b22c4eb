/**
 * The database-backed `EconomyService` of `services/quest.py`: account creation
 * with defaults, checked debit and unconditional credit, the three-stage
 * `record_game_result`, quest assignment and cancellation, achievement progress
 * and the cooldown-limited reward claim.
 */
module QuestEconomy {
  import opened Basics
  import opened Progression
  import opened Db

  /** The achievement table of this service, in the order it is scanned. */
  const ACHIEVEMENTS: seq<Achievement> := [
    Achievement("first_win", WinsAtLeast(1), 1000),
    Achievement("lucky_streak_3", StreakAtLeast(3), 5000),
    Achievement("lucky_streak_5", StreakAtLeast(5), 20000),
    Achievement("bad_luck_3", StreakAtMost(-3), 3000)
  ]

  /** The row `get_user` creates for an unknown id. */
  const NEW_USER: User := User(10000, 0, 0, 0, 0.0, [], None, 1, 1, "기본 장비", 0, 0, None)

  /** Seconds between two accepted reward claims. */
  const COOLDOWN: int := 600

  /** What a claim credits. */
  const CLAIM_AMOUNT: int := 5000

  /** What an achievement predicate of this service sees of a row. */
  function StatsOf(u: User): StatsView {
    StatsView(u.wins, u.streak, Some(u.maxRiskWin))
  }

  lemma NewUserValid()
    ensures ValidUser(NEW_USER)
  {
  }

  // ---------------------------------------------------------------- record_game_result

  /** A row and the notifications produced while updating it. */
  datatype GameRecord = GameRecord(user: User, notes: seq<Notification>)

  /** Stage 1 of `record_game_result`: counters, streak, lowest winning risk and the winnings columns. */
  function StatsStep(u: User, won: bool, amount: int, risk: real): (r: GameRecord)
    ensures r.user.achievements == u.achievements && r.user.balance == u.balance
    ensures r.user.activeQuest == u.activeQuest
  {
    if won then
      var newMax := amount > u.maxGamblingWin;
      GameRecord(u.(wins := u.wins + 1, streak := StreakAfter(u.streak, true),
                    maxRiskWin := if risk < u.maxRiskWin then risk else u.maxRiskWin,
                    totalGamblingWin := u.totalGamblingWin + amount,
                    maxGamblingWin := if newMax then amount else u.maxGamblingWin),
                 if newMax then [NewMaxGamblingWin(amount)] else [])
    else
      GameRecord(u.(losses := u.losses + 1, streak := StreakAfter(u.streak, false)), [])
  }

  function QuestNotes(n: Option<Notification>): seq<Notification> {
    if n.Some? then [n.value] else []
  }

  /**
   * `record_game_result(user_id, won, amount, risk)`: the stats step, then one pass
   * over the achievement table on the updated stats, then the quest step on the
   * balance that pass leaves.
   */
  function RecordedGame(u: User, won: bool, amount: int, risk: real): (r: GameRecord)
    ensures StatsOf(r.user) == StatsOf(StatsStep(u, won, amount, risk).user)
  {
    var s := StatsStep(u, won, amount, risk).user;
    var g := GrantAll(ACHIEVEMENTS, StatsOf(s), s.achievements, s.balance);
    var q := QuestAfter(s.activeQuest, won, g.balance);
    GameRecord(s.(achievements := g.achievements, balance := q.balance, activeQuest := q.quest),
               StatsStep(u, won, amount, risk).notes + g.notes + QuestNotes(q.note))
  }

  /**
   * The counters: exactly one of wins and losses grows by one, the streak steps as
   * `max(1, s + 1)` / `min(-1, s - 1)`, the lowest winning risk never rises, and a
   * win adds `amount` to the total and raises the best win to `max(old, amount)`.
   * The gear and claim columns are untouched.
   */
  lemma RecordStats(u: User, won: bool, amount: int, risk: real)
    ensures var v := RecordedGame(u, won, amount, risk).user;
            && (won ==> v.wins == u.wins + 1 && v.losses == u.losses)
            && (!won ==> v.losses == u.losses + 1 && v.wins == u.wins)
            && v.streak == StreakAfter(u.streak, won)
            && v.maxRiskWin <= u.maxRiskWin
            && (won ==> v.maxRiskWin == MinReal(risk, u.maxRiskWin))
            && (won ==> v.totalGamblingWin == u.totalGamblingWin + amount
                        && v.maxGamblingWin == Max(u.maxGamblingWin, amount))
            && (!won ==> v.totalGamblingWin == u.totalGamblingWin && v.maxGamblingWin == u.maxGamblingWin
                         && v.maxRiskWin == u.maxRiskWin)
            && v.(balance := u.balance, wins := u.wins, losses := u.losses, streak := u.streak,
                  maxRiskWin := u.maxRiskWin, achievements := u.achievements,
                  activeQuest := u.activeQuest, maxGamblingWin := u.maxGamblingWin,
                  totalGamblingWin := u.totalGamblingWin) == u
  {
  }

  /**
   * The achievements: the old list is kept as a prefix, no id is duplicated, and
   * every entry of the table whose condition holds on the updated stats is present.
   */
  lemma RecordAchievements(u: User, won: bool, amount: int, risk: real)
    requires NoDup(u.achievements)
    ensures var s := StatsStep(u, won, amount, risk).user;
            var v := RecordedGame(u, won, amount, risk).user;
            && v.achievements[..|u.achievements|] == u.achievements
            && NoDup(v.achievements)
            && (forall d :: d in ACHIEVEMENTS && Holds(d.cond, StatsOf(s)) ==> d.id in v.achievements)
  {
    var s := StatsStep(u, won, amount, risk).user;
    GrantKeepsAndAppends(ACHIEVEMENTS, StatsOf(s), s.achievements, s.balance);
    GrantComplete(ACHIEVEMENTS, StatsOf(s), s.achievements, s.balance);
  }

  /** The achievement notes announce exactly the appended ids, one each, in order. */
  lemma RecordAnnouncements(u: User, won: bool, amount: int, risk: real)
    ensures var s := StatsStep(u, won, amount, risk).user;
            var g := GrantAll(ACHIEVEMENTS, StatsOf(s), s.achievements, s.balance);
            var v := RecordedGame(u, won, amount, risk).user;
            && |g.notes| == |v.achievements| - |u.achievements|
            && (forall k :: 0 <= k < |g.notes| ==>
                  g.notes[k].AchievementUnlocked? && g.notes[k].id == v.achievements[|u.achievements| + k])
  {
    var s := StatsStep(u, won, amount, risk).user;
    GrantCreditsOnce(ACHIEVEMENTS, StatsOf(s), s.achievements, s.balance);
    RecordedAchievementsArePass(u, won, amount, risk);
  }

  /** The stored achievement list is the one the pass over the table produced. */
  lemma RecordedAchievementsArePass(u: User, won: bool, amount: int, risk: real)
    ensures var s := StatsStep(u, won, amount, risk).user;
            RecordedGame(u, won, amount, risk).user.achievements
            == GrantAll(ACHIEVEMENTS, StatsOf(s), u.achievements, u.balance).achievements
  {
  }

  /**
   * The balance: without an active quest it grows by exactly the rewards of the
   * achievements just announced; a completed quest adds its reward on top, a lost
   * one deducts its penalty with the result floored at 0.
   */
  lemma RecordBalance(u: User, won: bool, amount: int, risk: real)
    ensures var s := StatsStep(u, won, amount, risk).user;
            var g := GrantAll(ACHIEVEMENTS, StatsOf(s), s.achievements, s.balance);
            var v := RecordedGame(u, won, amount, risk).user;
            && g.balance == u.balance + RewardTotal(g.notes)
            && (u.activeQuest.None? ==> v.balance == g.balance && v.activeQuest.None?)
            && (u.activeQuest.Some? && u.activeQuest.value.kind == WIN_STREAK && !won ==>
                  v.balance == Max(0, g.balance - u.activeQuest.value.penalty) && v.activeQuest.None?)
            && (u.activeQuest.Some? && u.activeQuest.value.kind == WIN_STREAK && won
                && u.activeQuest.value.current + 1 >= u.activeQuest.value.target ==>
                  v.balance == g.balance + u.activeQuest.value.reward && v.activeQuest.None?)
  {
    var s := StatsStep(u, won, amount, risk).user;
    GrantCreditsOnce(ACHIEVEMENTS, StatsOf(s), s.achievements, s.balance);
  }

  /**
   * The account invariant survives a game: given a risk in [0, 1] and a
   * non-negative amount, the balance stays non-negative, the achievements stay
   * duplicate-free and any quest still active has `current < target`.
   */
  lemma RecordKeepsValid(u: User, won: bool, amount: int, risk: real)
    requires ValidUser(u) && 0.0 <= risk <= 1.0 && amount >= 0
    ensures ValidUser(RecordedGame(u, won, amount, risk).user)
  {
    var s := StatsStep(u, won, amount, risk).user;
    assert NoDup(s.achievements);
    GrantKeepsAndAppends(ACHIEVEMENTS, StatsOf(s), s.achievements, s.balance);
    GrantCreditsOnce(ACHIEVEMENTS, StatsOf(s), s.achievements, s.balance);
    var g := GrantAll(ACHIEVEMENTS, StatsOf(s), s.achievements, s.balance);
    GrantNeverLowers(ACHIEVEMENTS, StatsOf(s), s.achievements, s.balance);
    QuestAfterPreserves(s.activeQuest, won, g.balance);
  }

  /** A first win on a fresh account: 1000 for `first_win`, nothing else. */
  lemma FirstWinOnNewAccount()
    ensures var r := RecordedGame(NEW_USER, true, 0, 0.5);
            && r.user.balance == 11000 && r.user.wins == 1 && r.user.streak == 1
            && r.user.achievements == ["first_win"]
            && r.user.maxRiskWin == 0.0
            && r.notes == [AchievementUnlocked("first_win", 1000)]
  {
    var s := StatsStep(NEW_USER, true, 0, 0.5).user;
    assert s.wins == 1 && s.streak == 1;
    assert GrantAll(ACHIEVEMENTS[3..], StatsOf(s), ["first_win"], 11000) == Granted(["first_win"], 11000, []);
    assert GrantAll(ACHIEVEMENTS[2..], StatsOf(s), ["first_win"], 11000) == Granted(["first_win"], 11000, []);
    assert GrantAll(ACHIEVEMENTS[1..], StatsOf(s), ["first_win"], 11000) == Granted(["first_win"], 11000, []);
  }

  // ---------------------------------------------------------------- get_achievements_progress

  /** One entry of the progress list: the counter is `count` out of `goal`, if the id is known. */
  datatype ProgressEntry = ProgressEntry(id: string, reward: int, completed: bool, progress: Option<(int, int)>)

  /** The clamped counter shown for each known achievement id. */
  function ProgressOf(id: string, wins: int, streak: int): Option<(int, int)> {
    if id == "first_win" then Some((Min(wins, 1), 1))
    else if id == "lucky_streak_3" then Some((Min(Max(streak, 0), 3), 3))
    else if id == "lucky_streak_5" then Some((Min(Max(streak, 0), 5), 5))
    else if id == "bad_luck_3" then Some((Min(Abs(Min(streak, 0)), 3), 3))
    else None
  }

  function EntryFor(d: Achievement, u: User): ProgressEntry {
    ProgressEntry(d.id, d.reward, d.id in u.achievements, ProgressOf(d.id, u.wins, u.streak))
  }

  /** `get_achievements_progress` on a row: one entry per table entry, in order. */
  function AchievementsProgress(u: User): (r: seq<ProgressEntry>)
    ensures |r| == |ACHIEVEMENTS|
    ensures forall i :: 0 <= i < |r| ==> r[i] == EntryFor(ACHIEVEMENTS[i], u)
  {
    seq(|ACHIEVEMENTS|, i requires 0 <= i < |ACHIEVEMENTS| => EntryFor(ACHIEVEMENTS[i], u))
  }

  /**
   * Every counter lies in [0, goal] on an account with non-negative wins, and it is
   * full exactly when the achievement's own condition holds.
   */
  lemma ProgressTracksCondition(u: User, i: nat)
    requires i < |ACHIEVEMENTS| && u.wins >= 0
    ensures var p := ProgressOf(ACHIEVEMENTS[i].id, u.wins, u.streak);
            && p.Some? && 0 <= p.value.0 <= p.value.1
            && (p.value.0 == p.value.1 <==> Holds(ACHIEVEMENTS[i].cond, StatsOf(u)))
  {
  }

  /** After a game, every achievement whose counter is full is marked completed. */
  lemma FullProgressIsCompleted(u: User, won: bool, amount: int, risk: real, i: nat)
    requires i < |ACHIEVEMENTS| && u.wins >= 0
    ensures var e := AchievementsProgress(RecordedGame(u, won, amount, risk).user)[i];
            e.progress.Some? && e.progress.value.0 == e.progress.value.1 ==> e.completed
  {
    var v := RecordedGame(u, won, amount, risk).user;
    var s := StatsStep(u, won, amount, risk).user;
    ProgressTracksCondition(v, i);
    GrantComplete(ACHIEVEMENTS, StatsOf(s), s.achievements, s.balance);
    assert ACHIEVEMENTS[i] in ACHIEVEMENTS;
  }

  /** The loop of `get_achievements_progress`, building the list entry by entry. */
  method ProgressList(u: User) returns (result: seq<ProgressEntry>)
    ensures result == AchievementsProgress(u)
  {
    result := [];
    for i := 0 to |ACHIEVEMENTS|
      invariant |result| == i
      invariant forall j :: 0 <= j < i ==> result[j] == EntryFor(ACHIEVEMENTS[j], u)
    {
      var ach := ACHIEVEMENTS[i];
      var uWins, uStreak := u.wins, u.streak;
      var progress: Option<(int, int)> := None;
      if ach.id == "first_win" {
        progress := Some((Min(uWins, 1), 1));
      } else if ach.id == "lucky_streak_3" {
        progress := Some((Min(Max(uStreak, 0), 3), 3));
      } else if ach.id == "lucky_streak_5" {
        progress := Some((Min(Max(uStreak, 0), 5), 5));
      } else if ach.id == "bad_luck_3" {
        progress := Some((Min(Abs(Min(uStreak, 0)), 3), 3));
      }
      result := result + [ProgressEntry(ach.id, ach.reward, ach.id in u.achievements, progress)];
    }
  }

  // ---------------------------------------------------------------- claim_reward

  /** The cooldown decision of `claim_reward` at time `now` (seconds): accepted, or the seconds left. */
  function Claim(u: User, now: int): (r: (User, bool, Option<int>))
    ensures r.1 <==> u.lastClaimTime.None? || now >= u.lastClaimTime.value + COOLDOWN
    ensures r.1 ==> r.0 == u.(balance := u.balance + CLAIM_AMOUNT, lastClaimTime := Some(now)) && r.2.None?
    ensures !r.1 ==> r.0 == u && r.2.Some? && r.2.value > 0
    ensures !r.1 && now >= u.lastClaimTime.value ==> r.2.value <= COOLDOWN
    ensures !r.1 ==> now + r.2.value == u.lastClaimTime.value + COOLDOWN
  {
    if u.lastClaimTime.Some? && now < u.lastClaimTime.value + COOLDOWN then
      (u, false, Some(u.lastClaimTime.value + COOLDOWN - now))
    else
      (u.(balance := u.balance + CLAIM_AMOUNT, lastClaimTime := Some(now)), true, None)
  }

  /** After an accepted claim at `t`, a claim at `t2` is accepted exactly when `t2 >= t + 600`. */
  lemma ClaimCooldown(u: User, t: int, t2: int)
    requires Claim(u, t).1
    ensures Claim(Claim(u, t).0, t2).1 <==> t2 >= t + COOLDOWN
    ensures !Claim(Claim(u, t).0, t2).1 ==> Claim(Claim(Claim(u, t).0, t2).0, t + COOLDOWN).1
  {
  }

  // ---------------------------------------------------------------- quests

  /** `assign_quest` on a row: nothing when a quest is active, else a fresh quest with the drawn target. */
  function QuestAssigned(u: User, target: int): (r: (User, Option<Quest>))
    requires 3 <= target <= 5
    ensures u.activeQuest.Some? ==> r == (u, None)
    ensures u.activeQuest.None? ==> r.1 == Some(NewQuest(target)) && r.0 == u.(activeQuest := r.1)
    ensures ValidUser(u) ==> ValidUser(r.0)
  {
    if u.activeQuest.Some? then (u, None)
    else (u.(activeQuest := Some(NewQuest(target))), Some(NewQuest(target)))
  }

  /** A freshly assigned target-`t` quest completes on the `t`-th consecutive win. */
  lemma AssignedQuestCompletes(u: User, target: int)
    requires 3 <= target <= 5 && u.activeQuest.None?
    ensures var q := QuestAssigned(u, target).1.value;
            && QuestAfter(Some(q.(current := target - 1)), true, 0) ==
               QuestUpdate(None, 10000 * target, Some(QuestCompleted(target, 10000 * target)))
            && QuestAfter(Some(q.(current := target - 2)), true, 0).quest == Some(q.(current := target - 1))
  {
  }

  /** Stage 1 of `record_game_result`, field by field. */
  method UpdateStats(u: User, won: bool, amount: int, risk: real) returns (user: User, notes: seq<Notification>)
    ensures GameRecord(user, notes) == StatsStep(u, won, amount, risk)
  {
    user, notes := u, [];
    if won {
      user := user.(wins := user.wins + 1, streak := Max(1, user.streak + 1));
      if risk < user.maxRiskWin {
        user := user.(maxRiskWin := risk);
      }
      user := user.(totalGamblingWin := user.totalGamblingWin + amount);
      if amount > user.maxGamblingWin {
        user := user.(maxGamblingWin := amount);
        notes := notes + [NewMaxGamblingWin(amount)];
      }
    } else {
      user := user.(losses := user.losses + 1, streak := Min(-1, user.streak - 1));
    }
  }

  /** Stage 3 of `record_game_result`: advance, complete or fail the active quest. */
  method QuestStep(quest: Option<Quest>, won: bool, balance: int) returns (r: QuestUpdate)
    ensures r == QuestAfter(quest, won, balance)
  {
    r := QuestUpdate(quest, balance, None);
    if quest.Some? && quest.value.kind == WIN_STREAK {
      if won {
        var q := quest.value.(current := quest.value.current + 1);
        if q.current >= q.target {
          r := QuestUpdate(None, balance + q.reward, Some(QuestCompleted(q.target, q.reward)));
        } else {
          r := QuestUpdate(Some(q), balance, None);
        }
      } else {
        r := QuestUpdate(None, Max(0, balance - quest.value.penalty),
                         Some(QuestFailed(quest.value.target, quest.value.penalty)));
      }
    }
  }

  // ---------------------------------------------------------------- the service

  /** `EconomyService` over the users table; every operation first loads or creates the row. */
  class EconomyService {
    const db: UserTable

    constructor (db: UserTable)
      ensures this.db == db
    {
      this.db := db;
    }

    /** `get_user`: the stored row, or a fresh one with the defaults, which is stored. */
    method GetUser(userId: int) returns (u: User)
      modifies db
      ensures u == Loaded(old(db.rows), userId, NEW_USER)
      ensures db.rows == old(db.rows)[userId := u]
    {
      if userId in db.rows {
        u := db.rows[userId];
      } else {
        u := NEW_USER;
        db.rows := db.rows[userId := u];
      }
    }

    method GetBalance(userId: int) returns (balance: int)
      modifies db
      ensures balance == Loaded(old(db.rows), userId, NEW_USER).balance
      ensures db.rows == old(db.rows)[userId := Loaded(old(db.rows), userId, NEW_USER)]
    {
      var u := GetUser(userId);
      balance := u.balance;
    }

    /** `add_balance`: credit unconditionally. */
    method AddBalance(userId: int, amount: int)
      modifies db
      ensures var u := Loaded(old(db.rows), userId, NEW_USER);
              db.rows == old(db.rows)[userId := u.(balance := u.balance + amount)]
    {
      var u := GetUser(userId);
      db.rows := db.rows[userId := u.(balance := u.balance + amount)];
    }

    /** `remove_balance`: debit only when the balance covers the amount. */
    method RemoveBalance(userId: int, amount: int) returns (ok: bool)
      modifies db
      ensures var u := Loaded(old(db.rows), userId, NEW_USER);
              && (ok <==> u.balance >= amount)
              && db.rows == old(db.rows)[userId := if ok then u.(balance := u.balance - amount) else u]
              && (ok ==> db.rows[userId].balance >= 0)
    {
      var u := GetUser(userId);
      if u.balance < amount {
        return false;
      }
      db.rows := db.rows[userId := u.(balance := u.balance - amount)];
      return true;
    }

    /** `record_game_result`, updating the row field by field as the service does. */
    method RecordGameResult(userId: int, won: bool, amount: int, risk: real) returns (notes: seq<Notification>)
      modifies db
      ensures var r := RecordedGame(Loaded(old(db.rows), userId, NEW_USER), won, amount, risk);
              db.rows == old(db.rows)[userId := r.user] && notes == r.notes
    {
      var user := GetUser(userId);
      var stepped, statNotes := UpdateStats(user, won, amount, risk);
      var achievements, balance, achNotes := GrantAchievements(ACHIEVEMENTS, StatsOf(stepped), stepped.achievements, stepped.balance);
      var q := QuestStep(stepped.activeQuest, won, balance);
      user := stepped.(achievements := achievements, balance := q.balance, activeQuest := q.quest);
      notes := statNotes + achNotes + QuestNotes(q.note);
      db.rows := db.rows[userId := user];
    }

    /** `assign_quest` with the drawn `randint(3, 5)` passed in. */
    method AssignQuest(userId: int, target: int) returns (quest: Option<Quest>)
      requires 3 <= target <= 5
      modifies db
      ensures var r := QuestAssigned(Loaded(old(db.rows), userId, NEW_USER), target);
              db.rows == old(db.rows)[userId := r.0] && quest == r.1
    {
      var user := GetUser(userId);
      if user.activeQuest.Some? {
        return None;
      }
      var q := Quest(WIN_STREAK, target, 0, target * 10000, target * 2000);
      db.rows := db.rows[userId := user.(activeQuest := Some(q))];
      return Some(q);
    }

    /** `get_quest`. */
    method GetQuest(userId: int) returns (quest: Option<Quest>)
      modifies db
      ensures quest == Loaded(old(db.rows), userId, NEW_USER).activeQuest
      ensures db.rows == old(db.rows)[userId := Loaded(old(db.rows), userId, NEW_USER)]
    {
      var user := GetUser(userId);
      quest := user.activeQuest;
    }

    /** `cancel_quest`: drop the quest; the balance is not touched. */
    method CancelQuest(userId: int)
      modifies db
      ensures var u := Loaded(old(db.rows), userId, NEW_USER);
              db.rows == old(db.rows)[userId := u.(activeQuest := None)]
    {
      var user := GetUser(userId);
      db.rows := db.rows[userId := user.(activeQuest := None)];
    }

    /** `get_achievements_progress`. */
    method GetAchievementsProgress(userId: int) returns (result: seq<ProgressEntry>)
      modifies db
      ensures result == AchievementsProgress(Loaded(old(db.rows), userId, NEW_USER))
      ensures db.rows == old(db.rows)[userId := Loaded(old(db.rows), userId, NEW_USER)]
    {
      var user := GetUser(userId);
      result := ProgressList(user);
    }

    /** `claim_reward` at time `now`. */
    method ClaimReward(userId: int, now: int) returns (ok: bool, remaining: Option<int>)
      modifies db
      ensures var r := Claim(Loaded(old(db.rows), userId, NEW_USER), now);
              db.rows == old(db.rows)[userId := r.0] && ok == r.1 && remaining == r.2
    {
      var user := GetUser(userId);
      if user.lastClaimTime.Some? {
        var nextClaim := user.lastClaimTime.value + COOLDOWN;
        if now < nextClaim {
          return false, Some(nextClaim - now);
        }
      }
      db.rows := db.rows[userId := user.(balance := user.balance + CLAIM_AMOUNT, lastClaimTime := Some(now))];
      return true, None;
    }
  }
}
