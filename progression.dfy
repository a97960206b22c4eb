/**
 * The progression evaluator shared by both economy services: the signed win/loss
 * streak, achievements as a closed set of predicate kinds over a stats snapshot,
 * the one-pass achievement grant, and the win-streak quest lifecycle.
 */
module Progression {
  import opened Basics

  // ---------------------------------------------------------------- quests

  /** The `active_quest` record: `{type, target, current, reward, penalty}`. */
  datatype Quest = Quest(kind: string, target: int, current: int, reward: int, penalty: int)

  const WIN_STREAK: string := "win_streak"

  /** What every quest handed out by `assign_quest` looks like while it is active. */
  predicate WellFormedQuest(q: Quest) {
    && q.kind == WIN_STREAK
    && 3 <= q.target <= 5
    && 0 <= q.current < q.target
    && q.reward == 10000 * q.target
    && q.penalty == 2000 * q.target
  }

  /** The quest record both `assign_quest` versions build for a drawn target. */
  function NewQuest(target: int): (q: Quest)
    requires 3 <= target <= 5
    ensures WellFormedQuest(q) && q.current == 0 && q.target == target
    ensures q.reward == 5 * q.penalty
  {
    Quest(WIN_STREAK, target, 0, target * 10000, target * 2000)
  }

  /** The messages `record_game_result` returns, without their display text. */
  datatype Notification =
    | NewMaxGamblingWin(amount: int)
    | AchievementUnlocked(id: string, reward: int)
    | QuestCompleted(target: int, reward: int)
    | QuestFailed(target: int, penalty: int)

  /** The outcome of the quest step that ends `record_game_result`. */
  datatype QuestUpdate = QuestUpdate(quest: Option<Quest>, balance: int, note: Option<Notification>)

  /**
   * The quest step of `record_game_result`: a win advances a win-streak quest and
   * completes it (crediting its reward) once `current` reaches `target`; a loss
   * deducts the penalty, floored at 0, and clears the quest whatever its progress.
   * Quests of any other type are left alone.
   */
  function QuestAfter(quest: Option<Quest>, won: bool, balance: int): (r: QuestUpdate)
    ensures quest.None? ==> r == QuestUpdate(None, balance, None)
    ensures quest.Some? && quest.value.kind != WIN_STREAK ==> r == QuestUpdate(quest, balance, None)
    // a win-streak quest survives only a win, and only while it is short of its target
    ensures r.quest.Some? && r.quest.value.kind == WIN_STREAK ==>
              won && r.quest.value.current < r.quest.value.target
    ensures r.quest.Some? ==> r.balance == balance && r.note.None?
    ensures quest.Some? && quest.value.kind == WIN_STREAK && won ==>
              if quest.value.current + 1 >= quest.value.target
              then r == QuestUpdate(None, balance + quest.value.reward,
                                    Some(QuestCompleted(quest.value.target, quest.value.reward)))
              else r.quest == Some(quest.value.(current := quest.value.current + 1))
    ensures quest.Some? && quest.value.kind == WIN_STREAK && !won ==>
              r.quest.None? && r.balance == Max(0, balance - quest.value.penalty) && r.balance >= 0
              && r.note == Some(QuestFailed(quest.value.target, quest.value.penalty))
  {
    match quest
    case None => QuestUpdate(None, balance, None)
    case Some(q) =>
      if q.kind != WIN_STREAK then QuestUpdate(quest, balance, None)
      else if won then
        var advanced := q.(current := q.current + 1);
        if advanced.current >= advanced.target then
          QuestUpdate(None, balance + q.reward, Some(QuestCompleted(q.target, q.reward)))
        else
          QuestUpdate(Some(advanced), balance, None)
      else
        QuestUpdate(None, Max(0, balance - q.penalty), Some(QuestFailed(q.target, q.penalty)))
  }

  /** A well-formed quest stays well-formed, and the balance stays non-negative. */
  lemma QuestAfterPreserves(quest: Option<Quest>, won: bool, balance: int)
    requires quest.Some? ==> WellFormedQuest(quest.value)
    requires balance >= 0
    ensures var r := QuestAfter(quest, won, balance);
            && r.balance >= 0
            && (r.quest.Some? ==> WellFormedQuest(r.quest.value)
                                   && r.quest.value.current == quest.value.current + 1)
            && (quest.Some? && r.quest.None? ==> r.note.Some?)
  {
  }

  /** A target-3 quest: two wins give progress 2, then one loss clears it and costs 6000. */
  lemma QuestTwoWinsThenLoss(balance: int)
    requires balance >= 6000
    ensures var q := NewQuest(3);
            var a := QuestAfter(Some(q), true, balance);
            var b := QuestAfter(a.quest, true, a.balance);
            var c := QuestAfter(b.quest, false, b.balance);
            && b.quest == Some(q.(current := 2)) && b.balance == balance
            && c.quest.None? && c.balance == balance - 6000
  {
  }

  // ---------------------------------------------------------------- streak

  /**
   * The streak step of the database-backed service: `max(1, s + 1)` on a win and
   * `min(-1, s - 1)` on a loss, so the sign flips at once instead of passing 0.
   */
  function StreakAfter(streak: int, won: bool): (r: int)
    ensures won ==> r >= 1 && (streak >= 0 ==> r == streak + 1) && (streak < 0 ==> r == 1)
    ensures !won ==> r <= -1 && (streak <= 0 ==> r == streak - 1) && (streak > 0 ==> r == -1)
  {
    if won then Max(1, streak + 1) else Min(-1, streak - 1)
  }

  // ---------------------------------------------------------------- achievements

  /** The account statistics an achievement predicate may look at. */
  datatype StatsView = StatsView(wins: int, streak: int, maxRiskWin: Option<real>)

  /** The closed set of predicate kinds the two achievement tables use. */
  datatype Condition =
    | WinsAtLeast(n: int)                       // wins >= n
    | StreakAtLeast(n: int)                     // streak >= n
    | StreakAtMost(n: int)                      // streak <= n
    | LossStreakAtLeast(n: int)                 // abs(streak) >= n and streak < 0
    | MaxRiskWinAtMost(limit: real, missing: real)  // stats.get("max_risk_win", missing) <= limit

  /**
   * Whether a condition holds on a snapshot. The loss-streak form `abs(s) >= n and s < 0`
   * is the same test as the other service's `streak <= -n` for every `n >= 1`, and the
   * default of a missing `max_risk_win` matters only when the key is absent.
   */
  predicate Holds(c: Condition, s: StatsView)
    ensures c.LossStreakAtLeast? && c.n >= 1 ==> (Holds(c, s) <==> s.streak <= -c.n)
    ensures c.MaxRiskWinAtMost? && s.maxRiskWin.Some? ==> (Holds(c, s) <==> s.maxRiskWin.value <= c.limit)
  {
    match c
    case WinsAtLeast(n) => s.wins >= n
    case StreakAtLeast(n) => s.streak >= n
    case StreakAtMost(n) => s.streak <= n
    case LossStreakAtLeast(n) => Abs(s.streak) >= n && s.streak < 0
    case MaxRiskWinAtMost(limit, missing) => s.maxRiskWin.GetOr(missing) <= limit
  }

  /** One row of an achievement table (the display name is left out). */
  datatype Achievement = Achievement(id: string, cond: Condition, reward: int)

  /** The effect of one pass over an achievement table. */
  datatype Granted = Granted(achievements: seq<string>, balance: int, notes: seq<Notification>)

  /** Sum of the rewards announced by `AchievementUnlocked` notifications. */
  function RewardTotal(notes: seq<Notification>): int {
    if notes == [] then 0
    else (if notes[0].AchievementUnlocked? then notes[0].reward else 0) + RewardTotal(notes[1..])
  }

  /** `n` announces an achievement of `defs` that was absent from `held` and whose condition holds. */
  predicate Unlocks(defs: seq<Achievement>, s: StatsView, held: seq<string>, n: Notification) {
    && n.AchievementUnlocked?
    && n.id !in held
    && exists d :: d in defs && d.id == n.id && d.reward == n.reward && Holds(d.cond, s)
  }

  /**
   * The achievement loop of `record_game_result`: walk the table in order and, for
   * each id that is absent and whose condition holds on the updated stats, append
   * the id and credit its reward.
   */
  function GrantAll(defs: seq<Achievement>, s: StatsView, held: seq<string>, balance: int): (g: Granted)
    decreases |defs|
    ensures |held| <= |g.achievements|
  {
    if defs == [] then Granted(held, balance, [])
    else
      var d := defs[0];
      if d.id !in held && Holds(d.cond, s) then
        var rest := GrantAll(defs[1..], s, held + [d.id], balance + d.reward);
        Granted(rest.achievements, rest.balance, [AchievementUnlocked(d.id, d.reward)] + rest.notes)
      else
        GrantAll(defs[1..], s, held, balance)
  }

  /**
   * Two tables with the same ids and rewards, row by row, whose conditions agree on `s`
   * make the same pass on `s`.
   */
  lemma {:induction false} GrantAllAgrees(a: seq<Achievement>, b: seq<Achievement>, s: StatsView, held: seq<string>, balance: int)
    requires |a| == |b|
    requires forall i :: 0 <= i < |a| ==>
               a[i].id == b[i].id && a[i].reward == b[i].reward && (Holds(a[i].cond, s) <==> Holds(b[i].cond, s))
    ensures GrantAll(a, s, held, balance) == GrantAll(b, s, held, balance)
  {
    if a != [] {
      assert forall i :: 0 <= i < |a[1..]| ==> a[1..][i] == a[i + 1] && b[1..][i] == b[i + 1];
      if a[0].id !in held && Holds(a[0].cond, s) {
        GrantAllAgrees(a[1..], b[1..], s, held + [a[0].id], balance + a[0].reward);
      } else {
        GrantAllAgrees(a[1..], b[1..], s, held, balance);
      }
    }
  }

  /** Existing ids are kept, in order, new ones are appended, and no id is ever duplicated. */
  lemma {:induction false} GrantKeepsAndAppends(defs: seq<Achievement>, s: StatsView, held: seq<string>, balance: int)
    ensures var g := GrantAll(defs, s, held, balance);
            && g.achievements[..|held|] == held
            && (NoDup(held) ==> NoDup(g.achievements))
  {
    if defs != [] {
      var d := defs[0];
      if d.id !in held && Holds(d.cond, s) {
        GrantKeepsAndAppends(defs[1..], s, held + [d.id], balance + d.reward);
        var rest := GrantAll(defs[1..], s, held + [d.id], balance + d.reward);
        assert rest.achievements[..|held|] == rest.achievements[..|held| + 1][..|held|];
        if NoDup(held) {
          assert NoDup(held + [d.id]);
        }
      } else {
        GrantKeepsAndAppends(defs[1..], s, held, balance);
      }
    }
  }

  /** One notification per appended id, in the same order, and the balance grows by exactly their rewards. */
  lemma {:induction false} GrantCreditsOnce(defs: seq<Achievement>, s: StatsView, held: seq<string>, balance: int)
    ensures var g := GrantAll(defs, s, held, balance);
            && |g.notes| == |g.achievements| - |held|
            && (forall k :: 0 <= k < |g.notes| ==>
                  g.notes[k].AchievementUnlocked? && g.notes[k].id == g.achievements[|held| + k])
            && g.balance == balance + RewardTotal(g.notes)
  {
    if defs != [] {
      var d := defs[0];
      if d.id !in held && Holds(d.cond, s) {
        var held' := held + [d.id];
        GrantCreditsOnce(defs[1..], s, held', balance + d.reward);
        GrantKeepsAndAppends(defs[1..], s, held', balance + d.reward);
        var rest := GrantAll(defs[1..], s, held', balance + d.reward);
        var notes := [AchievementUnlocked(d.id, d.reward)] + rest.notes;
        assert notes[1..] == rest.notes;
        assert rest.achievements[..|held'|][|held|] == d.id;
      } else {
        GrantCreditsOnce(defs[1..], s, held, balance);
      }
    }
  }

  /** Every notification is for an id that was absent and whose condition holds on the stats. */
  lemma {:induction false} GrantJustified(defs: seq<Achievement>, s: StatsView, held: seq<string>, balance: int)
    ensures forall k :: 0 <= k < |GrantAll(defs, s, held, balance).notes| ==>
              Unlocks(defs, s, held, GrantAll(defs, s, held, balance).notes[k])
  {
    if defs != [] {
      var d := defs[0];
      if d.id !in held && Holds(d.cond, s) {
        var held' := held + [d.id];
        GrantJustified(defs[1..], s, held', balance + d.reward);
        var rest := GrantAll(defs[1..], s, held', balance + d.reward);
        var notes := [AchievementUnlocked(d.id, d.reward)] + rest.notes;
        forall k | 0 <= k < |notes| ensures Unlocks(defs, s, held, notes[k]) {
          if k == 0 {
            assert d in defs;
          } else {
            assert notes[k] == rest.notes[k - 1];
            var d' :| d' in defs[1..] && d'.id == notes[k].id && d'.reward == notes[k].reward
                     && Holds(d'.cond, s);
            assert d' in defs;
          }
        }
      } else {
        GrantJustified(defs[1..], s, held, balance);
        var rest := GrantAll(defs[1..], s, held, balance);
        forall k | 0 <= k < |rest.notes| ensures Unlocks(defs, s, held, rest.notes[k]) {
          assert Unlocks(defs[1..], s, held, rest.notes[k]);
          var d' :| d' in defs[1..] && d'.id == rest.notes[k].id && d'.reward == rest.notes[k].reward
                   && Holds(d'.cond, s);
          assert d' in defs;
        }
      }
    }
  }

  /** After the pass, every achievement of the table whose condition holds is present. */
  lemma {:induction false} GrantComplete(defs: seq<Achievement>, s: StatsView, held: seq<string>, balance: int)
    ensures forall d :: d in defs && Holds(d.cond, s) ==> d.id in GrantAll(defs, s, held, balance).achievements
  {
    if defs != [] {
      var d := defs[0];
      var held' := if d.id !in held && Holds(d.cond, s) then held + [d.id] else held;
      var balance' := if d.id !in held && Holds(d.cond, s) then balance + d.reward else balance;
      GrantComplete(defs[1..], s, held', balance');
      GrantKeepsAndAppends(defs[1..], s, held', balance');
      var g := GrantAll(defs, s, held, balance);
      assert g.achievements == GrantAll(defs[1..], s, held', balance').achievements;
      forall d' | d' in defs && Holds(d'.cond, s) ensures d'.id in g.achievements {
        if d' !in defs[1..] {
          assert d' == d && d.id in held';
          var i :| 0 <= i < |held'| && held'[i] == d.id;
          assert g.achievements[i] == g.achievements[..|held'|][i];
        }
      }
    }
  }

  /** Only ids of the table whose condition holds are ever appended. */
  lemma {:induction false} GrantOnlyHolding(defs: seq<Achievement>, s: StatsView, held: seq<string>, balance: int)
    ensures forall id :: id in GrantAll(defs, s, held, balance).achievements && id !in held ==>
              exists d :: d in defs && d.id == id && Holds(d.cond, s)
  {
    if defs != [] {
      var d := defs[0];
      var held' := if d.id !in held && Holds(d.cond, s) then held + [d.id] else held;
      var balance' := if d.id !in held && Holds(d.cond, s) then balance + d.reward else balance;
      GrantOnlyHolding(defs[1..], s, held', balance');
      var g := GrantAll(defs, s, held, balance);
      assert g.achievements == GrantAll(defs[1..], s, held', balance').achievements;
      forall id | id in g.achievements && id !in held ensures exists e :: e in defs && e.id == id && Holds(e.cond, s) {
        if id in held' {
          assert id == d.id && d in defs;
        } else {
          var e :| e in defs[1..] && e.id == id && Holds(e.cond, s);
          assert e in defs;
        }
      }
    }
  }

  /** When no reward of the table is negative, the pass never lowers the balance. */
  lemma {:induction false} GrantNeverLowers(defs: seq<Achievement>, s: StatsView, held: seq<string>, balance: int)
    requires forall d :: d in defs ==> d.reward >= 0
    ensures GrantAll(defs, s, held, balance).balance >= balance
  {
    if defs != [] {
      var d := defs[0];
      assert forall e :: e in defs[1..] ==> e in defs;
      if d.id !in held && Holds(d.cond, s) {
        GrantNeverLowers(defs[1..], s, held + [d.id], balance + d.reward);
      } else {
        GrantNeverLowers(defs[1..], s, held, balance);
      }
    }
  }

  /** Running the pass again over the state it produced grants nothing and credits nothing. */
  lemma {:induction false} GrantIdempotent(defs: seq<Achievement>, s: StatsView, held: seq<string>, balance: int)
    requires forall d :: d in defs && Holds(d.cond, s) ==> d.id in held
    ensures GrantAll(defs, s, held, balance) == Granted(held, balance, [])
  {
    if defs != [] {
      GrantIdempotent(defs[1..], s, held, balance);
    }
  }

  /** Granting is a no-op the second time: achievements are never granted twice. */
  lemma GrantTwiceIsOnce(defs: seq<Achievement>, s: StatsView, held: seq<string>, balance: int)
    ensures var g := GrantAll(defs, s, held, balance);
            GrantAll(defs, s, g.achievements, g.balance) == Granted(g.achievements, g.balance, [])
  {
    var g := GrantAll(defs, s, held, balance);
    GrantComplete(defs, s, held, balance);
    GrantIdempotent(defs, s, g.achievements, g.balance);
  }

  /** The imperative achievement loop, proved to compute `GrantAll`. */
  method GrantAchievements(defs: seq<Achievement>, s: StatsView, held: seq<string>, balance: int)
    returns (achievements: seq<string>, newBalance: int, notes: seq<Notification>)
    ensures Granted(achievements, newBalance, notes) == GrantAll(defs, s, held, balance)
  {
    achievements, newBalance, notes := held, balance, [];
    for i := 0 to |defs|
      invariant GrantAll(defs[i..], s, achievements, newBalance).achievements
                == GrantAll(defs, s, held, balance).achievements
      invariant GrantAll(defs[i..], s, achievements, newBalance).balance
                == GrantAll(defs, s, held, balance).balance
      invariant notes + GrantAll(defs[i..], s, achievements, newBalance).notes
                == GrantAll(defs, s, held, balance).notes
    {
      var d := defs[i];
      assert defs[i..][1..] == defs[i + 1..];
      if d.id !in achievements && Holds(d.cond, s) {
        achievements := achievements + [d.id];
        newBalance := newBalance + d.reward;
        notes := notes + [AchievementUnlocked(d.id, d.reward)];
      }
    }
    assert defs[|defs|..] == [];
  }
}
