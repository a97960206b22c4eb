# Stella: the economy, gambling and gear-upgrade core

Stella is a Discord bot with a virtual currency. Each user has an account with a
balance, win/loss statistics, a signed win/loss streak, achievements and at most
one active win-streak quest. The currency is spent in two places:

- a double-or-nothing game. The player picks a bet and a win probability, and the
  payout multiplier is `round(0.99 / p, 2)`. After each winning round the player
  can stop and collect the pot or play on, and a loss forfeits the pot;
- a piece of gear upgraded through levels 1..100 and seven tiers. Each attempt
  costs coins. It can gain one to three levels, keep or lose levels, or destroy
  the gear back to level 1. A one-in-five guessing minigame can add 3% to the
  success rate first.

The account logic exists twice: a JSON-file service (`services/economy.py`), which
the gambling cog uses, and a database-backed service (`services/quest.py`).

The project is a Dafny model of that core. The files are:

- `basics.dfy`: `Option` and small integer helpers.
- `progression.dfy`: what both services share. That is the streak step, the
  quest record and its lifecycle, and achievement conditions as a closed set of
  predicates with the one-pass grant.
- `db.dfy`: the `users` row, and the table as a map from user id to row.
- `upgrade_service.dfy`: the tier and cost tables, tier lookup, the cost and
  success-rate interpolations, the cumulative weighted choice, and one upgrade
  attempt as a transition on a row.
- `quest.dfy`: the database-backed economy service.
- `economy.dfy`: the JSON-file economy service over its in-memory dictionary.
- `game.dfy`: the gambling cog (`SettingsView`, `CustomInputModal`, `GambleView`, and the `give` and `gamble` commands).
- `upgrade_cog.dfy`: the upgrade cog (`UpgradeMainView`, `UpgradeConfirmView`,
  `MinigameView`).

Pure lookups and arithmetic are functions with lemmas. Where the source updates
state step by step, the model does too:

- the services are classes whose methods update a `map` field;
- the loops (`_weighted_choice`, the achievement loop, the progress list) are
  methods with invariants, proved equal to the functions the lemmas are about;
- the Discord views are classes whose fields follow the view's own attributes.

A button press is a method call that takes the pressing user as a parameter.
Every `random.random()` / `random.randint` draw is a parameter with its range as a
precondition. Time is an integer number of seconds.

Where the code behaves differently from what its names and comments suggest, the model follows the code:

- `upgrade` checks the balance before the level cap
  (services/upgrade_service.py:166-191). At level 100 a user who cannot pay the
  100,000,000 cost is therefore told the balance is insufficient, not that the
  gear is at the cap (`UpgradeService.BalanceCheckedBeforeLevel`).
- A level outside every cost bracket costs the literal 50,000,000
  (services/upgrade_service.py:83), not the top bracket's maximum
  (`UpgradeService.CostOutsideBrackets`).
- `upgrade` creates and stores a row for an unknown user before it checks
  anything, so even a refused attempt leaves a new row behind
  (`UpgradeService.AfterUpgrade`).

## Model

| member | source | states |
|---|---|---|
| Progression.NewQuest | services/quest.py:134-141 | the quest for a drawn target 3..5 is a well-formed win-streak quest with progress 0, reward 10000·target and penalty 2000·target (reward = 5 × penalty) |
| Progression.QuestAfter | services/quest.py:106-121 | no quest or a foreign quest type: nothing changes; a win advances a win-streak quest and completes it with its reward once `current` reaches `target`; a loss clears it and deducts the penalty floored at 0; a surviving quest always leaves balance and notes untouched |
| Progression.QuestAfterPreserves | services/quest.py:106-121 | a well-formed quest stays well-formed with progress +1, the balance stays ≥ 0, and a quest that disappears always produces a notification |
| Progression.QuestTwoWinsThenLoss | services/quest.py:106-121 | for a target-3 quest, two wins leave progress 2 and the same balance, then a loss clears the quest and costs exactly 6000 |
| Progression.StreakAfter | services/quest.py:80-95 | a win gives a streak ≥ 1 (s+1 when s ≥ 0, 1 after a losing run); a loss gives ≤ -1 (s-1 when s ≤ 0, -1 after a winning run) |
| Progression.Holds | services/economy.py:15-19 | the loss-streak test `abs(s) >= n and s < 0` is exactly the other service's `s <= -n` (services/quest.py:18) for every n ≥ 1, and the default of a missing `max_risk_win` decides nothing once the key is stored |
| Progression.GrantAll | services/quest.py:97-104 | the one-pass achievement grant never shortens the achievement list |
| Progression.GrantAllAgrees | services/economy.py:92-98 | two tables with the same ids and rewards row by row, whose conditions agree on the stats, make the same pass |
| Progression.GrantKeepsAndAppends | services/quest.py:97-104 | old ids are kept in order as a prefix, and a duplicate-free list stays duplicate-free |
| Progression.GrantCreditsOnce | services/quest.py:97-104 | one notification per appended id, in the same order, and the balance rises by exactly the announced rewards |
| Progression.GrantJustified | services/quest.py:97-104 | every notification names an id of the table that was absent and whose condition holds |
| Progression.GrantComplete | services/quest.py:97-104 | after the pass every table entry whose condition holds is present |
| Progression.GrantOnlyHolding | services/quest.py:97-104 | every newly present id belongs to a table entry whose condition holds |
| Progression.GrantNeverLowers | services/quest.py:97-104 | with non-negative rewards the pass never lowers the balance |
| Progression.GrantIdempotent | services/quest.py:97-104 | when every holding entry is already present, the pass changes nothing and announces nothing |
| Progression.GrantTwiceIsOnce | services/quest.py:97-104 | a second pass over the state the first produced grants and credits nothing (an achievement is never granted twice) |
| Progression.GrantAchievements | services/economy.py:92-98 | the imperative achievement loop computes the same list, balance and notifications as the one-pass grant |
| Db.Loaded | services/quest.py:28-52 | the row operated on is the stored row when present and the creation default otherwise |
| UpgradeService.FirstTier | services/upgrade_service.py:64-69 | the scan returns the first tier index whose inclusive range contains the level, or the table length when none does |
| UpgradeService.GetTierName | services/upgrade_service.py:64-69 | the name of the first tier containing the level, and "Ascension" when no tier contains it |
| UpgradeService.GetTierNameIsBand | services/upgrade_service.py:12-20 | the table scan equals the seven bands 1-20, 21-40, 41-60, 61-70, 71-80, 81-90, 91-100; every level outside 1..100 is Ascension |
| UpgradeService.GetTierInfo | services/upgrade_service.py:71-74 | the returned row is a row of the table, filed under the name the lookup reports, and contains the level for levels 1..100 |
| UpgradeService.FirstBracket | services/upgrade_service.py:76-83 | the scan returns the first cost bracket containing the level, or the table length |
| UpgradeService.CalculateCost | services/upgrade_service.py:76-83 | every cost lies in 500..100,000,000, and inside a bracket between that bracket's two costs |
| UpgradeService.BracketCost | services/upgrade_service.py:80-82 | the in-bracket interpolation is exactly min_cost at the bracket's first level and max_cost at its last |
| UpgradeService.BracketCostWithin | services/upgrade_service.py:80-82 | a bracket's interpolated cost lies between its ends and equals min_cost at the first level and max_cost at the last |
| UpgradeService.BracketCostMonotone | services/upgrade_service.py:80-82 | inside a bracket the cost never falls as the level rises |
| UpgradeService.CostBrackets | services/upgrade_service.py:23-31 | for each bracket the cost is min_cost at its first level and max_cost at its last, and non-decreasing in between |
| UpgradeService.CostOutsideBrackets | services/upgrade_service.py:83 | a level below 1 or above 100 costs 50,000,000 |
| UpgradeService.CostMonotone | services/upgrade_service.py:23-31 | across the whole ladder 1..100 the cost never falls as the level rises |
| UpgradeService.CalculateSuccessRate | services/upgrade_service.py:85-94 | the rate never exceeds 1.0, and for levels 1..100 with a non-negative bonus it is at least the tier's last rate, which is positive |
| UpgradeService.Progress | services/upgrade_service.py:89-91 | the position in the tier is 0 at its first level, 1 at its last, and in [0, 1] in between |
| UpgradeService.BaseRate | services/upgrade_service.py:92 | the interpolated rate equals the tier's first value at its first level and never rises above it inside the tier |
| UpgradeService.BaseRateAboveEnd | services/upgrade_service.py:89-92 | inside its range a tier's interpolated rate never drops below its second success value |
| UpgradeService.TierInfoAtEnds | services/upgrade_service.py:12-20 | each tier's first and last level look up that tier's own row |
| UpgradeService.BaseRateAtEnds | services/upgrade_service.py:89-92 | the interpolation starts at the tier's first success value and ends at its second |
| UpgradeService.SuccessRateTierEnds | services/upgrade_service.py:85-94 | with bonus 0 the rate is the tier's first value at its first level and its second value at its last level |
| UpgradeService.SuccessRateNonIncreasing | services/upgrade_service.py:89-94 | within one tier the rate never rises with the level, whatever the bonus |
| UpgradeService.FirstExceeding | services/upgrade_service.py:100-103 | the position found is the first whose running weight sum exceeds the roll, or the end when none does |
| UpgradeService.ChosenValue | services/upgrade_service.py:96-104 | the chosen value is always a member of the values: the one at the first position whose running sum exceeds the roll, else the last value |
| UpgradeService.WeightedChoice | services/upgrade_service.py:96-104 | the accumulating loop returns exactly the chosen value for that roll |
| UpgradeService.FirstExceedingSkips | services/upgrade_service.py:100-103 | positions already passed without exceeding the roll do not change where the scan stops |
| UpgradeService.ChoiceCoversUnitRoll | services/upgrade_service.py:100-104 | over weights summing to 1 a roll in [0,1) always stops inside the table, never on the `values[-1]` fallback |
| UpgradeService.OrOne | services/upgrade_service.py:162 | `x or 1` is never 0, keeps any non-zero value, and turns 0 into 1 |
| UpgradeService.DeepDrop | services/upgrade_service.py:236-244 | the deeper drop is 1, 2 or 3, and always 1 for tiers without a deeper-drop table |
| UpgradeService.UpgradeService.DrawDeepDrop | services/upgrade_service.py:236-244 | the tier-specific weighted draw yields the deeper-drop size |
| UpgradeService.FailedLevel | services/upgrade_service.py:210-247 | after a failed roll the gear is destroyed iff the destroy roll is below the tier's destroy chance, destroyed means level 1, otherwise the level stays in [max(1, old-3), old] and is kept when the tier has no drop table |
| UpgradeService.RollOutcome | services/upgrade_service.py:205-247 | the new level stays in [1, max(100, old)]; a winning roll gains 1, 2 or 3 levels capped at 100 without destroying; a losing roll is the failure outcome |
| UpgradeService.UpgradeService.AttemptSteps | services/upgrade_service.py:163-266 | the step-by-step balance check, level check, debit, rolls and row update give exactly the stored row and the report of one attempt |
| UpgradeService.UpgradeService.RollLevel | services/upgrade_service.py:205-247 | the step-by-step success, destroy and drop rolls produce that outcome |
| UpgradeService.Attempt | services/upgrade_service.py:147-266 | insufficient balance iff balance < cost; max level iff the cost is covered and level ≥ 100; an error leaves the row unchanged; otherwise exactly the cost is debited (balance stays ≥ 0), only the gear columns change, the rate is the computed one; change = new - old, success iff change > 0, new record iff the new level beats the stored best, which is then updated |
| UpgradeService.AttemptKeepsValid | services/upgrade_service.py:194-254 | an attempt keeps the account invariant: balance ≥ 0 and 1 ≤ level ≤ best ≤ 100 |
| UpgradeService.AttemptWinningRoll | services/upgrade_service.py:205-209 | a winning roll is a success that gains 1, 2 or 3 levels capped at 100 and never destroys |
| UpgradeService.AttemptLosingRoll | services/upgrade_service.py:210-247 | a losing roll never gains: destroyed means level 1, otherwise the level drops by at most 3 and not below 1 |
| UpgradeService.RookieFailureKeeps | services/upgrade_service.py:210-247 | a Rookie failure keeps the level: no destroy chance and no drop table |
| UpgradeService.AscensionFailureDestroys | services/upgrade_service.py:212-217 | an Ascension failure always destroys the gear to level 1, because the destroy chance is 1.0 and every roll is below 1 |
| UpgradeService.CommonFailureDropsAtMostOne | services/upgrade_service.py:218-233 | a Common failure keeps the level or drops it by one; the deeper drop is never reached |
| UpgradeService.FirstLevelAlwaysSucceeds | services/upgrade_service.py:13 | at level 1 the rate is 1.0, so an attempt that can be paid for always succeeds |
| UpgradeService.BalanceCheckedBeforeLevel | services/upgrade_service.py:166-191 | at level 100 a balance below 100,000,000 yields insufficient_balance, not max_level, and the row is unchanged |
| UpgradeService.AfterUpgrade | services/upgrade_service.py:133-267 | only the user's row changes (and is created if missing); a refused attempt stores the loaded row as it was, one that goes ahead debits exactly the reported cost and stores the new level |
| UpgradeService.UpgradeReport | services/upgrade_service.py:133-267 | the report starts from the stored level (1 when 0); insufficient balance iff the loaded balance is below the cost of that level; an unknown user starts at level 1 with a cost of 500, which the 10000 of a new row covers, so it is never refused |
| UpgradeService.UpgradeService.GetUserGear | services/upgrade_service.py:106-113 | level, best level and gear name of the row; a stored 0 level or best level reads as 1 and an empty name as the default name, other stored values are kept; (1, 1, default) for an unknown user |
| UpgradeService.UpgradeService.GetBalance | services/upgrade_service.py:124-131 | the stored balance, or 0 for an unknown user |
| UpgradeService.UpgradeService.Upgrade | services/upgrade_service.py:133-267 | the stored table and the report are exactly those of one attempt on the loaded or newly created row |
| QuestEconomy.NewUserValid | services/quest.py:32-48 | the row created for an unknown user satisfies the account invariant |
| QuestEconomy.StatsStep | services/quest.py:79-95 | the stats stage leaves achievements, balance and quest untouched |
| QuestEconomy.UpdateStats | services/quest.py:79-95 | the field-by-field updates compute the stats stage |
| QuestEconomy.RecordedGame | services/quest.py:74-125 | the counters the achievements see after a game are those of the stats stage |
| QuestEconomy.RecordStats | services/quest.py:80-95 | exactly one of wins/losses rises by one; streak steps as max(1, s+1) / min(-1, s-1); the lowest winning risk never rises and becomes min(risk, old) on a win; a win adds the amount to the total and raises the best win to max(old, amount); the gear and claim columns are untouched |
| QuestEconomy.RecordAchievements | services/quest.py:97-104 | the old achievement list stays a prefix, no id repeats, and every achievement whose condition holds on the updated stats is present |
| QuestEconomy.RecordAnnouncements | services/quest.py:97-104 | the achievement notes announce exactly the appended ids, one each, in order |
| QuestEconomy.RecordBalance | services/quest.py:97-121 | the achievement pass adds exactly the announced rewards; then a completed quest adds its reward, and a failed one deducts its penalty floored at 0 |
| QuestEconomy.RecordKeepsValid | services/quest.py:74-125 | a game keeps the account invariant (balance ≥ 0, no duplicate achievements, an active quest keeps current < target) |
| QuestEconomy.FirstWinOnNewAccount | services/quest.py:15 | a first win on a fresh account unlocks only first_win: balance 11000, streak 1, one notification |
| QuestEconomy.AchievementsProgress | services/quest.py:157-187 | one entry per table entry, in table order |
| QuestEconomy.ProgressTracksCondition | services/quest.py:173-184 | every counter lies in [0, goal] and is full exactly when the achievement's condition holds |
| QuestEconomy.FullProgressIsCompleted | services/quest.py:157-187 | after a game, any achievement whose counter is full is marked completed |
| QuestEconomy.ProgressList | services/quest.py:163-187 | the loop builds exactly the progress list |
| QuestEconomy.Claim | services/quest.py:199-217 | a claim is accepted iff there was no claim before or 600 s have passed; on acceptance it credits 5000 and stamps the time; otherwise nothing changes and the positive seconds left, at most 600, reach exactly last claim + 600 |
| QuestEconomy.ClaimCooldown | services/quest.py:207-215 | after an accepted claim at t, a claim at t2 is accepted iff t2 ≥ t + 600, and a refused one can always be followed by an accepted claim at t + 600 |
| QuestEconomy.QuestAssigned | services/quest.py:127-144 | an active quest blocks assignment (nothing changes, None returned); otherwise the new quest is stored and returned, and the invariant is kept |
| QuestEconomy.AssignedQuestCompletes | services/quest.py:106-115 | a freshly assigned target-t quest advances on each win and pays 10000·t on the t-th consecutive win |
| QuestEconomy.QuestStep | services/quest.py:106-121 | the step-by-step quest update computes the quest step |
| QuestEconomy.EconomyService.GetUser | services/quest.py:28-52 | returns the stored row or the default one, and the default is stored |
| QuestEconomy.EconomyService.GetBalance | services/quest.py:54-57 | the loaded row's balance, with the row created if missing |
| QuestEconomy.EconomyService.AddBalance | services/quest.py:59-63 | credits exactly the amount, unconditionally |
| QuestEconomy.EconomyService.RemoveBalance | services/quest.py:65-72 | succeeds iff the balance covers the amount; then debits exactly it, otherwise leaves the balance unchanged |
| QuestEconomy.EconomyService.RecordGameResult | services/quest.py:74-125 | the stored row and the notifications are those of the recorded game |
| QuestEconomy.EconomyService.AssignQuest | services/quest.py:127-144 | stores and returns what quest assignment gives for the drawn target |
| QuestEconomy.EconomyService.GetQuest | services/quest.py:146-149 | the active quest of the loaded row |
| QuestEconomy.EconomyService.CancelQuest | services/quest.py:151-155 | clears the active quest and nothing else |
| QuestEconomy.EconomyService.GetAchievementsProgress | services/quest.py:157-187 | the progress list of the loaded row |
| QuestEconomy.EconomyService.ClaimReward | services/quest.py:199-217 | the stored row, the verdict and the seconds left are those of the cooldown decision |
| JsonEconomy.NewDataValid | services/economy.py:42-52 | the record created for an unknown id satisfies the record invariant |
| JsonEconomy.ResetThenStepIsStreakAfter | services/economy.py:81-90 | reset-to-0-then-step gives the same streak as the database service's max(1, s+1) / min(-1, s-1) |
| JsonEconomy.StatsAfter | services/economy.py:80-90 | exactly one of wins/losses rises; the streak steps as above; the lowest winning risk (missing read as 1.0) never rises, a win at risk below 1 sets it to min(risk, old), and a stored key is never removed |
| JsonEconomy.RecordSteps | services/economy.py:71-117 | the stats update, then the achievement loop, then the quest step, run in sequence on one record, give exactly the record and the notes of the recorded game |
| JsonEconomy.UpdateStats | services/economy.py:80-90 | the step-by-step stats update computes that stats update |
| JsonEconomy.RecordedGameWith | services/economy.py:71-117 | the stats after a game are those of the stats update |
| JsonEconomy.TablesAgreeOnStoredRecords | services/economy.py:14-20 | on a record holding `max_risk_win` the source's table and the corrected one record the same game |
| JsonEconomy.RecordedGame | services/economy.py:71-117 | the stats after a game are those of the stats update, and on every record holding `max_risk_win` the result is that of the source's own table |
| JsonEconomy.RecordKeepsValid | services/economy.py:71-117 | a game keeps the record invariant (balance ≥ 0 thanks to the floored penalty) and only appends achievements |
| JsonEconomy.RecordCreditsOnce | services/economy.py:92-98 | one notification per new id, the balance rises by exactly their rewards, and every condition that holds is granted |
| JsonEconomy.HighRollerNeedsRiskyWin | services/economy.py:19 | high_roller is newly granted only if this game was a win at risk ≤ 0.1 or such a win was recorded before |
| JsonEconomy.HighRollerOnLegacyLoss | services/economy.py:19 | as written, a stored record without max_risk_win gains high_roller and 50000 on a loss |
| JsonEconomy.HighRollerNotOnLegacyLoss | services/economy.py:19 | with the missing risk read as 1.0, the same legacy loss grants nothing |
| JsonEconomy.QuestAssigned | services/economy.py:128-149 | an active quest blocks assignment; otherwise the new quest is stored and returned, and the invariant is kept |
| JsonEconomy.QuestStep | services/economy.py:100-114 | the in-place quest update (penalty subtracted, then a negative balance reset to 0) computes the quest step |
| JsonEconomy.Insert | services/economy.py:121-125 | inserting a pair adds exactly one entry |
| JsonEconomy.SortDesc | services/economy.py:121-125 | sorting keeps the length |
| JsonEconomy.InsertPermutes | services/economy.py:121-125 | insertion adds exactly the inserted pair to the multiset of entries |
| JsonEconomy.InsertHead | services/economy.py:121-125 | after insertion the head is the inserted pair or the old head |
| JsonEconomy.InsertSorted | services/economy.py:121-125 | inserting into a list sorted by balance, descending, keeps it sorted |
| JsonEconomy.SortDescSortsAndPermutes | services/economy.py:121-125 | the sort result is ordered by balance, descending, and is a permutation of its input |
| JsonEconomy.Leaderboard | services/economy.py:119-126 | the leaderboard has min(10, number of users) entries |
| JsonEconomy.LeaderboardIsTop | services/economy.py:119-126 | at most 10 entries, sorted by balance descending, drawn from the users, and no user left out is richer than one listed |
| JsonEconomy.RankedItems | services/economy.py:121-122 | one (uid, balance) pair per id, in order |
| JsonEconomy.RemoveThenAddRestores | services/economy.py:57-69 | a funded debit followed by a credit of the same amount restores the record |
| JsonEconomy.RemoveKeepsBalanceNonNegative | services/economy.py:62-69 | a debit never takes a non-negative balance below 0, debits the amount iff funded, and leaves every other record untouched |
| JsonEconomy.AfterAdd | services/economy.py:57-60 | `add_balance` raises the record's balance by the amount (creating the record if missing) and changes nothing else |
| JsonEconomy.AfterRemove | services/economy.py:62-69 | `remove_balance` lowers the balance by the amount when funded, otherwise only creates the record; nothing else changes |
| JsonEconomy.AfterRecord | services/economy.py:71-117 | `record_game_result` changes only the player's record, whose stats take the game |
| JsonEconomy.AfterAssign | services/economy.py:128-149 | `assign_quest` changes only the player's record, which then has a quest (an existing one kept), with balance, stats and achievements untouched |
| JsonEconomy.EconomyService.constructor | services/economy.py:29-31 | a service whose data file is absent starts empty |
| JsonEconomy.EconomyService.Items | services/economy.py:121-122 | `data.items()` as (uid, balance) pairs in insertion order |
| JsonEconomy.EconomyService.GetLeaderboard | services/economy.py:119-126 | at most 10 pairs, sorted by balance descending, each a user's actual balance |
| JsonEconomy.EconomyService.GetUserData | services/economy.py:42-52 | the stored record or a fresh one, which is stored and appended to the insertion order |
| JsonEconomy.EconomyService.GetBalance | services/economy.py:54-55 | the loaded record's balance |
| JsonEconomy.EconomyService.AddBalance | services/economy.py:57-60 | credits exactly the amount |
| JsonEconomy.EconomyService.RemoveBalance | services/economy.py:62-69 | succeeds iff funded; then debits exactly the amount, otherwise only creates the record |
| JsonEconomy.EconomyService.RecordGameResult | services/economy.py:71-117 | the stored record and the notifications are those of the recorded game, which on every record the service holds is the pass over the source's own table |
| JsonEconomy.EconomyService.AssignQuest | services/economy.py:128-149 | stores and returns what quest assignment gives for the drawn target |
| JsonEconomy.EconomyService.GetQuest | services/economy.py:151-152 | the active quest of the loaded record |
| GameCog.Truncate | cogs/game.py:82 | `int()` truncates toward zero: within 1 below a non-negative value, within 1 above a negative one |
| GameCog.Round2 | cogs/game.py:45 | two-decimal rounding moves the value by at most half a hundredth and yields a whole number of hundredths |
| GameCog.Multiplier | cogs/game.py:45 | the multiplier is within half a hundredth of 0.99 / p and a whole number of hundredths |
| GameCog.WinPot | cogs/game.py:82 | for a non-negative pot and multiplier the new pot is the non-negative whole part of pot × multiplier |
| GameCog.HouseEdge | cogs/game.py:45 | for every offered probability (up to 75%) p × multiplier lies strictly between 0.98 and 1: each round has a house edge |
| GameCog.MultiplierAboveOne | cogs/game.py:45 | every multiplier on offer exceeds 1.3 |
| GameCog.WinPotGrows | cogs/game.py:82 | a winning round never shrinks a non-negative pot, and strictly grows a pot of 4 or more |
| GameCog.ParseInt | cogs/game.py:16-18 | text parses iff it is an optional sign followed by at least one ASCII digit (the ValueError case otherwise); the sign decides the sign of the value |
| GameCog.ShowNat | cogs/game.py:17-18 | the decimal rendering is a non-empty digit string without a leading zero |
| GameCog.DigitsOfShowNat | cogs/game.py:17-18 | the digits of the rendering evaluate back to the number |
| GameCog.ParseShow | cogs/game.py:17-18 | parsing the decimal rendering of any integer gives that integer back |
| GameCog.ValidateInput | cogs/game.py:16-31 | rejected as not a number iff a field does not parse; below the minimum iff it parses and the amount is below 1000; out of range iff the percentage is outside 1..75; accepted iff all pass, as (amount, percent/100) |
| GameCog.AcceptedInRange | cogs/game.py:23-31 | an accepted setting has amount ≥ 1000 and probability in [0.01, 0.75] |
| GameCog.ShownSettingAccepted | cogs/game.py:16-31 | typing any allowed amount and percentage in decimal is accepted as exactly that setting |
| GameCog.AddedAmount | cogs/game.py:173-176 | "+1000" never exceeds the balance; it adds 1000 iff that fits, otherwise the amount becomes the balance |
| GameCog.SubtractedAmount | cogs/game.py:181-184 | "-1000" never goes below 1000; it subtracts 1000 iff the amount is at least 2000, otherwise it becomes 1000 |
| GameCog.SubtractUndoesAdd | cogs/game.py:170-185 | "-1000" undoes a "+1000" the balance covered |
| GameCog.AddUndoesSubtract | cogs/game.py:170-185 | "+1000" undoes a "-1000" from an affordable amount of at least 2000 |
| GameCog.AddCanLowerAmount | cogs/game.py:173-176 | when the balance has fallen below the amount, "+1000" lowers the amount, even below 1000 |
| GameCog.SettingsView.constructor | cogs/game.py:141-148 | a panel starts at amount 1000 and probability 50% with the matching multiplier |
| GameCog.SettingsView.UpdateEmbedData | cogs/game.py:150-151 | the multiplier is recomputed from the probability; nothing else changes |
| GameCog.SettingsView.AllIn | cogs/game.py:161-168 | accepted iff the re-read balance is at least 1000, and then the amount becomes that balance |
| GameCog.SettingsView.AddAmount | cogs/game.py:170-177 | the amount becomes the "+1000" result against the re-read balance |
| GameCog.SettingsView.SubAmount | cogs/game.py:179-185 | the amount becomes the "-1000" result |
| GameCog.SettingsView.Confirm | cogs/game.py:191-198 | a fresh, unstarted session for the panel's user, amount and probability is opened iff the re-read balance covers the amount |
| GameCog.CustomInputModal.constructor | cogs/game.py:11-13 | the form belongs to its panel |
| GameCog.CustomInputModal.OnSubmit | cogs/game.py:15-36 | the panel takes the amount and probability only when validation accepts them, with the multiplier recomputed; a rejection leaves it unchanged |
| GameCog.GambleView.Accepts | cogs/game.py:50-54 | a press runs only for the owner, on a view still listening, on a button its message shows; on a valid session such a press never meets a lost or paid-out game, and any button but start belongs to a started game |
| GameCog.GambleView.constructor | cogs/game.py:39-48 | a new session holds the bet as its pot, the multiplier round(0.99/p, 2), and only the start button |
| GameCog.RoundData | cogs/game.py:76-104 | a round changes only the player's record: its stats take the game, its balance is that of the recorded game, and only a loss with a second draw below 0.05 can give it a quest |
| GameCog.GambleView.RunRound | cogs/game.py:72-104 | a win iff roll < probability; the game is recorded at that risk; a win multiplies the pot and keeps the session open; a loss zeroes the pot, ends the session and, when the second draw is below 0.05, tries to assign a quest |
| GameCog.GambleView.StartGame | cogs/game.py:61-70 | only the owner's press on the start button counts; without funds the session stops without a round; otherwise the bet is debited once and a round is played |
| GameCog.GambleView.StartGameAsWritten | cogs/game.py:61-67 | as written, the owner's start press debits the bet (or only creates the record), then raises: the view is started, played no round, still listens with the bet as its pot, and its message still shows the start button, so the owner can press it again |
| GameCog.GambleView.ContinueGame | cogs/game.py:106-107 | only the owner's press on continue counts, and it plays another round on the current pot |
| GameCog.GambleView.StopGame | cogs/game.py:109-114 | only the owner's press on stop counts; it credits exactly the pot, once, and ends the session |
| GameCog.GambleView.OnTimeout | cogs/game.py:56-58 | a stopped view receives no timeout; otherwise the pot is credited iff the game started, is not over and the pot is positive, and the view stops |
| GameCog.AsWrittenStartRefunds | cogs/game.py:56-67 | after a single raised start, the timeout's credit of the bet restores a funded player's record exactly, and pays an unfunded player the bet they never staked |
| GameCog.RemovedTimesDebits | cogs/game.py:61-65 | repeated `remove_balance` calls the balance covers take one amount each and touch no other record |
| GameCog.AsWrittenRepressesLoseBets | cogs/game.py:56-67 | a funded player who presses the still-shown start k times loses k bets to the debits and gets one back from the timeout: k - 1 bets lost with no round played |
| GameCog.PressesThenTimeoutAsWritten | cogs/game.py:56-67 | a fresh session as written, start pressed k ≥ 1 times then timed out: every press raises and leaves the start button live, the timeout pays the bet exactly once, and the records are k debits followed by that one credit |
| GameCog.Give | cogs/game.py:210-213 | the `give` command credits the caller exactly 5000 |
| GameCog.Gamble | cogs/game.py:228-232 | the `gamble` command opens a fresh settings panel for the caller at 1000 and 50%, showing the loaded balance |
| UpgradeCog.UnpackTwo | cogs/upgrade.py:281 | unpacking into two names succeeds iff there are exactly two values |
| UpgradeCog.GearNeverUnpacksIntoTwo | cogs/upgrade.py:296 | as written, the three-value gear tuple never unpacks into two names |
| UpgradeCog.LevelsOf | cogs/upgrade.py:281 | unpacking into three names yields the level and the best level and ignores the name |
| UpgradeCog.LevelsOfStoredRow | cogs/upgrade.py:281-282 | the unpacked level is the stored level (1 when missing), which is at least 1 on a valid row |
| UpgradeCog.StartCheck | cogs/upgrade.py:252-263 | not enough balance iff balance < cost; max level iff the cost is covered and level ≥ 100; otherwise confirmation with the cost and the bonus-free rate |
| UpgradeCog.StartCheckAgreesWithAttempt | cogs/upgrade.py:253-261 | on an unchanged row the panel's checks and the service's checks agree case by case, and an attempt that goes ahead costs what the panel showed at the rate for its bonus |
| UpgradeCog.BalanceReportedBeforeCap | cogs/upgrade.py:255-261 | at level 100 a user who cannot pay is told about the balance, not about the cap |
| UpgradeCog.UpgradeMainView.constructor | cogs/upgrade.py:208-213 | the panel holds its owner, the service, and the level and balance it was given |
| UpgradeCog.UpgradeMainView.StartUpgrade | cogs/upgrade.py:252-277 | only the owner gets a decision; a confirmation panel without bonus, with the fixed cost and rate, is opened iff both checks pass |
| UpgradeCog.UpgradeMainView.Refresh | cogs/upgrade.py:280-283 | only the owner's press re-reads the level and balance; others change nothing |
| UpgradeCog.StartCommand | cogs/upgrade.py:295-300 | the main panel opens for the caller on the stored level and balance |
| UpgradeCog.UpgradeConfirmView.constructor | cogs/upgrade.py:66-74 | cost and rate are fixed at construction from the level and the bonus |
| UpgradeCog.UpgradeConfirmView.UpgradeAndReopen | cogs/upgrade.py:84-141 | one attempt with the bonus, then a fresh main panel on the new level and balance unless the error is one of the refusals |
| UpgradeCog.UpgradeConfirmView.DoUpgrade | cogs/upgrade.py:83-141 | only the owner's press runs an attempt with the panel's bonus; a new main panel follows iff the attempt went ahead |
| UpgradeCog.UpgradeConfirmView.PlayMinigame | cogs/upgrade.py:144-199 | only the owner's press opens a fresh, unanswered minigame with no bonus for this panel |
| UpgradeCog.UpgradeConfirmView.AfterMinigame | cogs/upgrade.py:151-196 | an attempt with the minigame's bonus; only an insufficient balance ends the flow, and max_level still reopens the panel |
| UpgradeCog.MinigameView.constructor | cogs/upgrade.py:10-16 | the game belongs to the confirmation panel's owner, holds the drawn number, and starts unanswered with no bonus |
| UpgradeCog.MinigameView.Press | cogs/upgrade.py:28-58 | a stopped view receives nothing; a non-owner and a second answer change nothing; the owner's first answer sets the bonus to 0.03 iff the number is correct, stops the view and runs the follow-up attempt |
| UpgradeCog.MinigameView.OnTimeout | cogs/upgrade.py:60-61 | the view stops with no answer and no bonus |

## Left out

- Persistence. The SQLAlchemy sessions and commits and the JSON file load/save are not modelled. The database is a map from user id to row, and the file a map field. `str(user_id)` keys are integers.
- `UpgradeService.set_gear_name` and the database `get_leaderboard` queries of both database services are left out (SQL ORDER BY/LIMIT in the store).
- The moderation `warnings` column is left out.
- Presentation is left out: embeds, message texts, `TIER_COLORS`, `TIER_EMOJIS`, help text, `get_embed`, the upgrade `info` command, and the `Game` cog's `balance`, `leaderboard` and `quest` slash commands, which only read and display. Its `give` command (credit 5000 through `add_balance`) is `GameCog.Give`, and its `gamble` command is `GameCog.Gamble`.
- `QuestView` is left out. Its accept button only edits a message. Its decline button calls `cancel_quest`, which the JSON economy the cog uses does not define; the database service's `CancelQuest` is modelled.
- `UpgradeConfirmView.cancel` holds no state and is left out.
- Randomness: every draw is a parameter with its range as a precondition. Wall-clock time is an integer number of seconds, so sub-second truncation of the remaining time is not modelled.
- Concurrency and asyncio interleaving are not modelled: each service call is atomic, and the discord.py `View.stop()` and timeout rules become a `stopped` field.
- The gambling cog imports the synchronous JSON economy but `await`s its results (cogs/game.py:58, 65, 76, 111, 117, 163, 172, 193, 207, 212, 217, 230, 236). In Python each such `await` raises `TypeError` after the call has taken effect. Apart from `start_game` (see Findings), the model gives each call its effect and continues, i.e. the evidently intended asynchronous service. The members this covers:
  - GameCog.SettingsView.AllIn, GameCog.SettingsView.AddAmount, GameCog.SettingsView.Confirm: `get_balance` at cogs/game.py:163, 172 and 193 returns its value, where as written the callback raises before using it;
  - GameCog.GambleView.RunRound, GameCog.GambleView.ContinueGame, GameCog.RoundData: `record_game_result` and `assign_quest` at cogs/game.py:76 and 117 return, where as written the round raises after recording, before the pot changes or any quest is offered;
  - GameCog.GambleView.StopGame: `add_balance` at cogs/game.py:111 returns and the view stops, where as written it raises after the credit and before `self.stop()`, so the unedited message keeps its stop button live;
  - GameCog.GambleView.OnTimeout, GameCog.Give: the credit at cogs/game.py:58 and 212 is their whole effect, and the raise that follows changes nothing further;
  - GameCog.Gamble: `get_balance` at cogs/game.py:230 returns and the panel opens, where as written the command raises before any panel exists.
- cogs/game.py:76 passes the probability positionally. Under the JSON economy the cog imports, it binds to `risk`, and the model uses that binding. Under the database service's signature it would bind to `amount`.
- `SettingsView` has no owner check, so anyone may press its buttons; the model does not restrict the caller either.
- GameCog.Round2, GameCog.Multiplier: exact reals with halves rounded up, where Python rounds binary floats; on inputs near a rounding tie the two may differ by 0.01.
- GameCog.Truncate, GameCog.WinPot: applied to the exact product. The IEEE product in `int(current_pot * multiplier)` can differ by one.
- UpgradeService.CalculateCost: exact integer arithmetic where the source truncates a float product, so IEEE rounding may differ by one at some levels.
- UpgradeService.CalculateSuccessRate, UpgradeService.Progress, UpgradeService.BaseRate: exact reals in place of floats.
- UpgradeService.ChosenValue, UpgradeService.WeightedChoice: `cumulative += weight` is summed exactly, so a roll within rounding error of a float partial sum may pick the neighbouring value.
- UpgradeService.FailedLevel: the `maintain + drop1` threshold is an exact sum, with the same rounding caveat at the boundary.
- GameCog.ParseInt: does not accept the surrounding whitespace, underscores or non-ASCII digits that Python's `int()` allows. The Discord form's length limits (probability at most two characters) are not modelled either.
- JsonEconomy.RecordedGame, JsonEconomy.EconomyService.RecordGameResult: use the corrected `high_roller` table (missing `max_risk_win` read as 1.0). Every record the service creates holds the key, and on those records both tables give the same result (`JsonEconomy.TablesAgreeOnStoredRecords`). They differ only on a record loaded from a file written without the key, which the model's in-memory service never holds.
- The database row follows the columns the two database services read and write. services/db.py:21-32 declares only `user_id`, `balance`, `wins`, `losses`, `streak`, `max_risk_win`, `achievements`, `warnings` and `active_quest`, so the `User(...)` calls at services/upgrade_service.py:153-158 and services/quest.py:42-47, which pass gear and claim columns, would raise `TypeError` against it as written.
- UpgradeCog.UpgradeMainView.Refresh, UpgradeCog.StartCommand and the panels reached from UpgradeCog.UpgradeConfirmView.DoUpgrade and UpgradeCog.UpgradeConfirmView.AfterMinigame use the corrected three-value unpacking (see Findings), not the raising code as written.

## Findings

| source | as written | input that shows it | evidently intended | confidence | as-written member | corrected member |
|---|---|---|---|---|---|---|
| services/economy.py:19 | `high_roller` tests `stats.get("max_risk_win", 0) <= 0.1`, reading a missing key as 0, while the stats update reads it as 1.0 (services/economy.py:85) | a stored record whose stats lack `max_risk_win` losing one game: it unlocks `high_roller` and 50000 coins | a missing key read as 1.0, so the achievement needs a win at risk ≤ 0.1 | medium; not executed | JsonEconomy.HighRollerOnLegacyLoss | JsonEconomy.HighRollerNeedsRiskyWin |
| cogs/upgrade.py:296 | `level, max_level = await ...get_user_gear(...)` unpacks the three-value tuple into two names; the same happens at cogs/upgrade.py:137, 193, 281 and 304 | any user running the start command: `ValueError: too many values to unpack` | `level, max_level, _ = ...` | high; not executed | UpgradeCog.GearNeverUnpacksIntoTwo | UpgradeCog.LevelsOf |
| cogs/game.py:65 | `start_game` awaits the synchronous `remove_balance`: after the debit takes effect the callback raises `TypeError`, leaving the view started, with no round played and still listening; `clear_items` emptied only the view object, so the unedited message still shows the start button and each further press debits again; `on_timeout` later credits the pot, which is still the bet, once. The `gamble` command already raises the same way at cogs/game.py:230, before any panel exists | were the panel reachable: a user whose balance is below the bet pressing start is never debited and 60 s later credited the bet; a user with 3000 pressing start three times on a 1000 bet ends with 1000 | an asynchronous economy (or no `await`): debit, then stop on missing funds or play a round | high; not executed | GameCog.GambleView.StartGameAsWritten, GameCog.AsWrittenStartRefunds, GameCog.AsWrittenRepressesLoseBets | GameCog.GambleView.StartGame |
