/**
 * The upgrade cog: the main panel (`UpgradeMainView`), the confirmation panel
 * (`UpgradeConfirmView`) and the number-guessing minigame (`MinigameView`) that can
 * precede an attempt. Every panel belongs to one user; the pressing user and the
 * random draws are parameters.
 */
module UpgradeCog {
  import opened Basics
  import opened Db
  import opened UpgradeService

  // ---------------------------------------------------------------- unpacking `get_user_gear`

  /** The Python values of a result tuple, as far as unpacking it is concerned. */
  datatype PyValue = PyInt(i: int) | PyStr(s: string)

  /** The tuple `get_user_gear` returns: level, best level and gear name. */
  function GearValues(gear: (int, int, string)): seq<PyValue> {
    [PyInt(gear.0), PyInt(gear.1), PyStr(gear.2)]
  }

  /** `a, b = values`: Python raises `ValueError` unless there are exactly two values. */
  function UnpackTwo(values: seq<PyValue>): (r: Option<(PyValue, PyValue)>)
    ensures r.Some? <==> |values| == 2
    ensures r.Some? ==> r.value == (values[0], values[1])
  {
    if |values| == 2 then Some((values[0], values[1])) else None
  }

  /** As written, the cog unpacks the three-value gear tuple into two names, which always fails. */
  lemma GearNeverUnpacksIntoTwo(gear: (int, int, string))
    ensures UnpackTwo(GearValues(gear)) == None
  {
  }

  /** `level, max_level, _ = get_user_gear(...)`: the two levels, the name being ignored. */
  function LevelsOf(gear: (int, int, string)): (r: (int, int))
    ensures GearValues(gear) == [PyInt(r.0), PyInt(r.1), PyStr(gear.2)]
  {
    (gear.0, gear.1)
  }

  /** The corrected unpacking gives back the stored levels, with 1 for a missing one. */
  lemma LevelsOfStoredRow(service: UpgradeService, userId: int)
    requires userId in service.db.rows
    ensures LevelsOf(service.GetUserGear(userId)) == (OrOne(service.db.rows[userId].gearLevel), OrOne(service.db.rows[userId].maxGearLevel))
    ensures LevelsOf(service.GetUserGear(userId)).0 >= 1 || service.db.rows[userId].gearLevel < 0
  {
  }

  // ---------------------------------------------------------------- start_upgrade

  /** What pressing "start upgrade" on the main panel leads to. */
  datatype StartDecision = NotEnoughBalance | AtMaxLevel | OpenConfirm(cost: int, rate: real)

  /** The checks of `start_upgrade`, in order: the balance must cover the cost, then the level must be below 100. */
  function StartCheck(level: int, balance: int): (r: StartDecision)
    ensures r == NotEnoughBalance <==> balance < CalculateCost(level)
    ensures r == AtMaxLevel <==> balance >= CalculateCost(level) && level >= 100
    ensures r.OpenConfirm? <==> balance >= CalculateCost(level) && level < 100
    ensures r.OpenConfirm? ==> r.cost == CalculateCost(level) && r.rate == CalculateSuccessRate(level, 0.0)
  {
    var cost := CalculateCost(level);
    if balance < cost then NotEnoughBalance
    else if level >= 100 then AtMaxLevel
    else OpenConfirm(cost, CalculateSuccessRate(level, 0.0))
  }

  /**
   * On a row the panel shows unchanged, the panel's checks and the service's own
   * agree case by case, and an attempt that goes ahead costs and risks what the
   * confirmation panel showed.
   */
  lemma StartCheckAgreesWithAttempt(u: User, bonus: real, d: Draws)
    requires u.gearLevel >= 1
    ensures StartCheck(u.gearLevel, u.balance) == NotEnoughBalance
            <==> Attempt(u, bonus, d).1.error == Some(InsufficientBalance)
    ensures StartCheck(u.gearLevel, u.balance) == AtMaxLevel
            <==> Attempt(u, bonus, d).1.error == Some(MaxLevel)
    ensures StartCheck(u.gearLevel, u.balance).OpenConfirm?
            ==> && Attempt(u, bonus, d).1.error.None?
                && Attempt(u, bonus, d).1.cost == StartCheck(u.gearLevel, u.balance).cost
                && Attempt(u, bonus, d).1.rate == CalculateSuccessRate(u.gearLevel, bonus)
  {
    assert OrOne(u.gearLevel) == u.gearLevel;
  }

  /** At level 100 a user who cannot pay is told about the balance, not about the level cap. */
  lemma BalanceReportedBeforeCap(balance: int)
    requires balance < CalculateCost(100)
    ensures StartCheck(100, balance) == NotEnoughBalance
  {
  }

  // ---------------------------------------------------------------- the panels

  /** The main panel of one user, showing a level and a balance read when it was built or refreshed. */
  class UpgradeMainView {
    const userId: int
    const service: UpgradeService
    var level: int
    var balance: int

    constructor (userId: int, service: UpgradeService, level: int, balance: int)
      ensures this.userId == userId && this.service == service
      ensures this.level == level && this.balance == balance
    {
      this.userId := userId;
      this.service := service;
      this.level := level;
      this.balance := balance;
    }

    /** `start_upgrade`: the owner only; opens a confirmation panel, without bonus, when both checks pass. */
    method StartUpgrade(actor: int) returns (decision: Option<StartDecision>, confirm: UpgradeConfirmView?)
      ensures actor != userId ==> decision == None && confirm == null
      ensures actor == userId ==> decision == Some(StartCheck(level, balance))
      ensures confirm != null <==> actor == userId && StartCheck(level, balance).OpenConfirm?
      ensures confirm != null
              ==> && fresh(confirm) && confirm.userId == userId && confirm.service == service
                  && confirm.level == level && confirm.balance == balance && confirm.minigameBonus == 0.0
                  && confirm.cost == CalculateCost(level) && confirm.rate == CalculateSuccessRate(level, 0.0)
    {
      confirm := null;
      if actor != userId {
        return None, null;
      }
      var cost := CalculateCost(level);
      if balance < cost {
        return Some(NotEnoughBalance), null;
      }
      if level >= 100 {
        return Some(AtMaxLevel), null;
      }
      decision := Some(OpenConfirm(cost, CalculateSuccessRate(level, 0.0)));
      confirm := new UpgradeConfirmView(userId, service, level, balance, 0.0);
    }

    /** `refresh`, with the gear tuple unpacked into its three values: the owner only; re-reads level and balance. */
    method Refresh(actor: int) returns (accepted: bool)
      modifies this
      ensures accepted <==> actor == userId
      ensures !accepted ==> level == old(level) && balance == old(balance)
      ensures accepted ==> level == LevelsOf(service.GetUserGear(userId)).0 && balance == service.GetBalance(userId)
    {
      if actor != userId {
        return false;
      }
      level := LevelsOf(service.GetUserGear(userId)).0;
      balance := service.GetBalance(userId);
      return true;
    }
  }

  /** The `start` command, with the gear tuple unpacked into its three values: a main panel on the stored level and balance. */
  method StartCommand(service: UpgradeService, actor: int) returns (view: UpgradeMainView)
    ensures fresh(view) && view.userId == actor && view.service == service
    ensures view.level == LevelsOf(service.GetUserGear(actor)).0 && view.balance == service.GetBalance(actor)
  {
    var levels := LevelsOf(service.GetUserGear(actor));
    view := new UpgradeMainView(actor, service, levels.0, service.GetBalance(actor));
  }

  /** The confirmation panel: cost and rate are fixed when it is built. */
  class UpgradeConfirmView {
    const userId: int
    const service: UpgradeService
    const level: int
    const balance: int
    const minigameBonus: real
    const cost: int
    const rate: real

    constructor (userId: int, service: UpgradeService, level: int, balance: int, minigameBonus: real)
      ensures this.userId == userId && this.service == service && this.level == level
      ensures this.balance == balance && this.minigameBonus == minigameBonus
      ensures cost == CalculateCost(level) && rate == CalculateSuccessRate(level, minigameBonus)
    {
      this.userId := userId;
      this.service := service;
      this.level := level;
      this.balance := balance;
      this.minigameBonus := minigameBonus;
      cost := CalculateCost(level);
      rate := CalculateSuccessRate(level, minigameBonus);
    }

    /**
     * One attempt with `bonus`, then, unless it was refused, a fresh main panel on the
     * new level and balance (the gear tuple unpacked into its three values).
     * `refusals` are the errors after which no panel follows.
     */
    method UpgradeAndReopen(bonus: real, d: Draws, refusals: set<UpgradeError>) returns (result: UpgradeResult, next: UpgradeMainView?)
      modifies service.db
      ensures service.db.rows == AfterUpgrade(old(service.db.rows), userId, bonus, d)
      ensures result == UpgradeReport(old(service.db.rows), userId, bonus, d)
      ensures next != null <==> !(result.error.Some? && result.error.value in refusals)
      ensures next != null
              ==> && fresh(next) && next.userId == userId && next.service == service
                  && next.level == LevelsOf(service.GetUserGear(userId)).0 && next.balance == service.GetBalance(userId)
    {
      result := service.Upgrade(userId, bonus, d);
      if result.error.Some? && result.error.value in refusals {
        return result, null;
      }
      next := new UpgradeMainView(userId, service, LevelsOf(service.GetUserGear(userId)).0, service.GetBalance(userId));
    }

    /** `do_upgrade`: the owner only; an attempt with the panel's bonus; either refusal ends the flow. */
    method DoUpgrade(actor: int, d: Draws) returns (result: Option<UpgradeResult>, next: UpgradeMainView?)
      modifies service.db
      ensures actor != userId ==> result == None && next == null && unchanged(service.db)
      ensures actor == userId
              ==> && service.db.rows == AfterUpgrade(old(service.db.rows), userId, minigameBonus, d)
                  && result == Some(UpgradeReport(old(service.db.rows), userId, minigameBonus, d))
                  && (next != null <==> result.value.error.None?)
      ensures next != null
              ==> && fresh(next) && next.userId == userId
                  && next.level == LevelsOf(service.GetUserGear(userId)).0 && next.balance == service.GetBalance(userId)
    {
      if actor != userId {
        return None, null;
      }
      var r;
      r, next := UpgradeAndReopen(minigameBonus, d, {InsufficientBalance, MaxLevel});
      result := Some(r);
    }

    /** `play_minigame`: the owner only; opens a minigame whose answer leads to an attempt on this panel. */
    method PlayMinigame(actor: int, correctNumber: int) returns (game: MinigameView?)
      requires 1 <= correctNumber <= 5
      ensures game != null <==> actor == userId
      ensures game != null ==> fresh(game) && game.Valid() && game.confirm == this && game.userId == userId
      ensures game != null ==> game.correctNumber == correctNumber && game.bonus == 0.0 && !game.answered && !game.stopped
    {
      if actor != userId {
        return null;
      }
      game := new MinigameView(this, correctNumber);
    }

    /** `after_minigame`: an attempt with the minigame's bonus; only an insufficient balance ends the flow. */
    method AfterMinigame(bonus: real, d: Draws) returns (result: UpgradeResult, next: UpgradeMainView?)
      modifies service.db
      ensures service.db.rows == AfterUpgrade(old(service.db.rows), userId, bonus, d)
      ensures result == UpgradeReport(old(service.db.rows), userId, bonus, d)
      ensures next != null <==> result.error != Some(InsufficientBalance)
      ensures next != null
              ==> && fresh(next) && next.userId == userId
                  && next.level == LevelsOf(service.GetUserGear(userId)).0 && next.balance == service.GetBalance(userId)
    {
      result, next := UpgradeAndReopen(bonus, d, {InsufficientBalance});
    }
  }

  /** What a press on the minigame did. */
  datatype MinigameOutcome =
    | NotListening            // the view was stopped (answered or timed out)
    | NotOwner
    | AlreadyAnswered
    | Answered(correct: bool, result: UpgradeResult)

  /** The 1..5 guessing game; a correct guess adds 0.03 to the success rate of the attempt that follows. */
  class MinigameView {
    const userId: int
    const confirm: UpgradeConfirmView
    const correctNumber: int
    var bonus: real
    var answered: bool
    var stopped: bool

    /** The game belongs to the confirmation panel's owner; the bonus is 0.03 or nothing, and only an answer can have set it. */
    ghost predicate Valid()
      reads this
    {
      && userId == confirm.userId
      && 1 <= correctNumber <= 5
      && (bonus == 0.0 || bonus == 0.03)
      && (!answered ==> bonus == 0.0)
    }

    /** A minigame for the owner of `confirm`, with the `randint(1, 5)` draw passed in. */
    constructor (confirm: UpgradeConfirmView, correctNumber: int)
      requires 1 <= correctNumber <= 5
      ensures Valid() && this.confirm == confirm && userId == confirm.userId
      ensures this.correctNumber == correctNumber && bonus == 0.0 && !answered && !stopped
    {
      userId := confirm.userId;
      this.confirm := confirm;
      this.correctNumber := correctNumber;
      bonus := 0.0;
      answered := false;
      stopped := false;
    }

    /**
     * Pressing button `number`. A stopped view receives nothing; otherwise only the
     * owner's first answer counts: it sets the bonus, stops the view and runs the
     * attempt of `after_minigame`.
     */
    method Press(actor: int, number: int, d: Draws) returns (outcome: MinigameOutcome, next: UpgradeMainView?)
      requires Valid()
      modifies this, confirm.service.db
      ensures Valid()
      ensures old(stopped) ==> outcome == NotListening && next == null && unchanged(this) && unchanged(confirm.service.db)
      ensures !old(stopped) && actor != userId
              ==> outcome == NotOwner && next == null && unchanged(this) && unchanged(confirm.service.db)
      ensures !old(stopped) && actor == userId && old(answered)
              ==> outcome == AlreadyAnswered && next == null && unchanged(this) && unchanged(confirm.service.db)
      ensures !old(stopped) && actor == userId && !old(answered)
              ==> && answered && stopped && (bonus == 0.03 <==> number == correctNumber)
                  && outcome.Answered? && (outcome.correct <==> number == correctNumber)
                  && confirm.service.db.rows
                     == AfterUpgrade(old(confirm.service.db.rows), userId, bonus, d)
                  && outcome.result == UpgradeReport(old(confirm.service.db.rows), userId, bonus, d)
                  && (next != null <==> outcome.result.error != Some(InsufficientBalance))
    {
      next := null;
      if stopped {
        return NotListening, null;
      }
      if actor != userId {
        return NotOwner, null;
      }
      if answered {
        return AlreadyAnswered, null;
      }
      answered := true;
      if number == correctNumber {
        bonus := 0.03;
      }
      stopped := true;
      var result;
      result, next := confirm.AfterMinigame(bonus, d);
      outcome := Answered(number == correctNumber, result);
    }

    /** `on_timeout`: the view stops; no answer and no bonus. */
    method OnTimeout()
      requires Valid()
      modifies this
      ensures Valid() && stopped && answered == old(answered) && bonus == old(bonus)
    {
      stopped := true;
    }
  }
}
