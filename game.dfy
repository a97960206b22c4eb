/**
 * The gambling cog: the settings panel (`SettingsView`), its free-text input form
 * (`CustomInputModal`) and the double-or-nothing session (`GambleView`) it opens.
 * The cog works against the JSON-file economy. Discord interactions become method
 * calls: the pressing user is a parameter, and the random draws of a round are
 * parameters in [0, 1).
 */
module GameCog {
  import opened Basics
  import opened Progression
  import opened JsonEconomy

  // ---------------------------------------------------------------- arithmetic of the game

  /** Python's `int()` of a float: truncation toward zero. */
  function Truncate(v: real): (r: int)
    ensures v >= 0.0 ==> r as real <= v < r as real + 1.0
    ensures v < 0.0 ==> r as real - 1.0 < v <= r as real
  {
    if v >= 0.0 then v.Floor else -((-v).Floor)
  }

  /** `round(x, 2)` on exact reals, halves rounded up. */
  function Round2(x: real): (r: real)
    ensures x - 0.005 < r <= x + 0.005
    ensures (r * 100.0).Floor as real == r * 100.0
  {
    ((x * 100.0 + 0.5).Floor as real) / 100.0
  }

  /** The payout multiplier `round(0.99 / probability, 2)`: the fair price less 1%, to the nearest hundredth. */
  function Multiplier(probability: real): (r: real)
    requires probability != 0.0
    ensures 0.99 / probability - 0.005 < r <= 0.99 / probability + 0.005
    ensures (r * 100.0).Floor as real == r * 100.0
  {
    Round2(0.99 / probability)
  }

  /** A win multiplies the pot and truncates: `int(current_pot * multiplier)`. */
  function WinPot(pot: int, multiplier: real): (r: int)
    ensures pot >= 0 && multiplier >= 0.0 ==> 0 <= r && r as real <= pot as real * multiplier < r as real + 1.0
  {
    Truncate(pot as real * multiplier)
  }

  /** Scaling by a positive factor keeps strict and non-strict bounds. */
  lemma ScaleBounds(p: real, lo: real, x: real, hi: real)
    requires p > 0.0 && lo < x <= hi
    ensures p * lo < p * x <= p * hi
  {
    assert p * x - p * lo == p * (x - lo);
    assert p * hi - p * x == p * (hi - x);
  }

  lemma EdgeBounds(p: real, q: real, m: real)
    requires 0.0 < p <= 0.75 && p * q == 0.99 && q - 0.005 < m <= q + 0.005
    ensures 0.98 < p * m < 1.0
  {
    ScaleBounds(p, q - 0.005, m, q + 0.005);
    var lo := p * (q - 0.005);
    var hi := p * (q + 0.005);
    assert lo == 0.99 - p * 0.005;
    assert hi == 0.99 + p * 0.005;
    assert lo < p * m <= hi;
    assert lo >= 0.98625;
  }

  /** Over the offered range of probabilities the game keeps a house edge: the expected return of a round is below the stake. */
  lemma HouseEdge(p: real, m: real)
    requires 0.0 < p <= 0.75 && m == Multiplier(p)
    ensures 0.98 < p * m < 1.0
  {
    var q := 0.99 / p;
    assert p * q == 0.99;
    EdgeBounds(p, q, m);
  }

  /** Every multiplier on offer is above 1.3 (the lowest, at 75%, is 1.32). */
  lemma MultiplierAboveOne(p: real, m: real)
    requires 0.0 < p <= 0.75 && m == Multiplier(p)
    ensures m > 1.3
  {
    var q := 0.99 / p;
    assert q * p == 0.99;
    if q < 1.32 {
      assert false;
    }
  }

  /** A winning round never shrinks a non-negative pot, and from 4 upwards it strictly grows it. */
  lemma WinPotGrows(pot: int, p: real, m: real)
    requires 0.0 < p <= 0.75 && m == Multiplier(p) && pot >= 0
    ensures WinPot(pot, m) >= pot
    ensures pot >= 4 ==> WinPot(pot, m) > pot
  {
    MultiplierAboveOne(p, m);
    var x := pot as real;
    var r := WinPot(pot, m);
    if pot > 0 {
      ScaleBounds(x, 1.3, m, m);
      assert x * m > 1.3 * x;
      assert r as real > x * m - 1.0;
      assert x * m - 1.0 > 1.3 * x - 1.0;
      assert 1.3 * x - 1.0 == x - 1.0 + 0.3 * x;
    } else {
      assert x * m == 0.0;
    }
  }

  // ---------------------------------------------------------------- decimal text

  predicate IsDigit(c: char) {
    '0' <= c <= '9'
  }

  predicate AllDigits(s: string) {
    forall i :: 0 <= i < |s| ==> IsDigit(s[i])
  }

  /** The value of a string of decimal digits, most significant first. */
  function DigitsValue(s: string): (n: nat)
    requires AllDigits(s)
    decreases |s|
  {
    if s == [] then 0 else DigitsValue(s[..|s| - 1]) * 10 + (s[|s| - 1] as int - '0' as int)
  }

  /**
   * Python's `int(text)`: an optional sign followed by at least one decimal digit;
   * anything else is the `ValueError` case.
   */
  function ParseInt(s: string): (r: Option<int>)
    ensures r.Some? <==> (s != [] && AllDigits(s)) || (|s| >= 2 && (s[0] == '-' || s[0] == '+') && AllDigits(s[1..]))
    ensures r.Some? && s[0] == '-' ==> r.value <= 0
    ensures r.Some? && s[0] != '-' ==> r.value >= 0
  {
    if |s| >= 1 && (s[0] == '-' || s[0] == '+') then
      if |s| >= 2 && AllDigits(s[1..]) then
        var v: int := DigitsValue(s[1..]);
        Some(if s[0] == '-' then -v else v)
      else
        None
    else if s != [] && AllDigits(s) then
      Some(DigitsValue(s))
    else
      None
  }

  /** The decimal rendering of a natural number, without leading zeros. */
  function ShowNat(n: nat): (s: string)
    ensures s != [] && AllDigits(s)
    ensures s[0] == '0' ==> n == 0
    decreases n
  {
    if n < 10 then [('0' as int + n) as char] else ShowNat(n / 10) + [('0' as int + n % 10) as char]
  }

  /** The decimal rendering of an integer, as `str(n)` writes it. */
  function Show(n: int): string {
    if n < 0 then "-" + ShowNat(-n) else ShowNat(n)
  }

  lemma {:induction false} DigitsOfShowNat(n: nat)
    ensures DigitsValue(ShowNat(n)) == n
    decreases n
  {
    if n >= 10 {
      DigitsOfShowNat(n / 10);
      var s := ShowNat(n);
      assert s[..|s| - 1] == ShowNat(n / 10);
    }
  }

  /** Parsing the rendering of any integer gives the integer back. */
  lemma ParseShow(n: int)
    ensures ParseInt(Show(n)) == Some(n)
  {
    if n < 0 {
      var s := ShowNat(-n);
      DigitsOfShowNat(-n);
      assert Show(n) == "-" + s;
      assert ("-" + s)[1..] == s;
      assert ("-" + s)[0] == '-';
    } else {
      var s := ShowNat(n);
      DigitsOfShowNat(n);
      assert Show(n) == s;
      assert s[0] != '-' && s[0] != '+';
    }
  }

  // ---------------------------------------------------------------- CustomInputModal.on_submit

  datatype InputError = NotANumber | BelowMinimumBet | ProbabilityOutOfRange

  /** A bet setting: amount and probability of winning a round. */
  datatype Setting = Setting(amount: int, probability: real)

  datatype Submission = Rejected(error: InputError) | Accepted(setting: Setting)

  /**
   * The checks of `on_submit`, in order: both fields must parse, the amount must be
   * at least 1000, and the percentage within 1..75.
   */
  function ValidateInput(amountText: string, percentText: string): (r: Submission)
    ensures r == Rejected(NotANumber) <==> ParseInt(amountText).None? || ParseInt(percentText).None?
    ensures r == Rejected(BelowMinimumBet)
            <==> ParseInt(amountText).Some? && ParseInt(percentText).Some? && ParseInt(amountText).value < 1000
    ensures r.Accepted?
            <==> && ParseInt(amountText).Some? && ParseInt(percentText).Some?
                 && ParseInt(amountText).value >= 1000 && 1 <= ParseInt(percentText).value <= 75
    ensures r.Accepted? ==> r.setting == Setting(ParseInt(amountText).value, ParseInt(percentText).value as real / 100.0)
  {
    match (ParseInt(amountText), ParseInt(percentText))
    case (Some(amt), Some(pct)) =>
      if amt < 1000 then Rejected(BelowMinimumBet)
      else if !(1 <= pct <= 75) then Rejected(ProbabilityOutOfRange)
      else Accepted(Setting(amt, pct as real / 100.0))
    case _ => Rejected(NotANumber)
  }

  /** An accepted setting is within the game's limits. */
  lemma AcceptedInRange(amountText: string, percentText: string)
    requires ValidateInput(amountText, percentText).Accepted?
    ensures ValidateInput(amountText, percentText).setting.amount >= 1000
    ensures 0.01 <= ValidateInput(amountText, percentText).setting.probability <= 0.75
  {
  }

  /** Typing any allowed amount and percentage in decimal is accepted as exactly that setting. */
  lemma ShownSettingAccepted(amount: int, percent: int)
    requires amount >= 1000 && 1 <= percent <= 75
    ensures ValidateInput(Show(amount), Show(percent)) == Accepted(Setting(amount, percent as real / 100.0))
  {
    ParseShow(amount);
    ParseShow(percent);
  }

  // ---------------------------------------------------------------- SettingsView adjusters

  /** "+1000": one step up when the re-read balance covers it, otherwise the whole balance. */
  function AddedAmount(amount: int, balance: int): (r: int)
    ensures r <= balance
    ensures r == amount + 1000 <==> amount + 1000 <= balance
    ensures r != amount + 1000 ==> r == balance
  {
    if amount + 1000 <= balance then amount + 1000 else balance
  }

  /** "-1000": one step down, but never below the minimum bet of 1000. */
  function SubtractedAmount(amount: int): (r: int)
    ensures r >= 1000
    ensures r == amount - 1000 <==> amount >= 2000
    ensures r != amount - 1000 ==> r == 1000
  {
    if amount - 1000 >= 1000 then amount - 1000 else 1000
  }

  /** "-1000" undoes a "+1000" that the balance covered. */
  lemma SubtractUndoesAdd(amount: int, balance: int)
    requires 1000 <= amount && amount + 1000 <= balance
    ensures SubtractedAmount(AddedAmount(amount, balance)) == amount
  {
  }

  /** "+1000" undoes a "-1000" from an affordable amount of at least 2000. */
  lemma AddUndoesSubtract(amount: int, balance: int)
    requires 2000 <= amount <= balance
    ensures AddedAmount(SubtractedAmount(amount), balance) == amount
  {
  }

  /** As written, "+1000" can lower the amount, even below the minimum bet, when the balance has fallen. */
  lemma AddCanLowerAmount(amount: int, balance: int)
    requires balance < amount
    ensures AddedAmount(amount, balance) < amount
    ensures balance < 1000 ==> AddedAmount(amount, balance) < 1000
  {
  }

  /** The settings panel; it has no owner check, so any user may press its buttons. */
  class SettingsView {
    const userId: int
    const economy: EconomyService
    var balance: int
    var amount: int
    var probability: real
    var multiplier: real

    ghost predicate Valid()
      reads this
    {
      0.01 <= probability <= 0.75 && multiplier == Multiplier(probability)
    }

    /** A panel for `userId`, starting at 1000 and 50%. */
    constructor (userId: int, economy: EconomyService, currentBalance: int)
      ensures Valid()
      ensures this.userId == userId && this.economy == economy && balance == currentBalance
      ensures amount == 1000 && probability == 0.5
    {
      this.userId := userId;
      this.economy := economy;
      balance := currentBalance;
      amount := 1000;
      probability := 0.5;
      multiplier := Multiplier(0.5);
    }

    /** `update_embed_data`. */
    method UpdateEmbedData()
      requires 0.01 <= probability <= 0.75
      modifies this
      ensures Valid()
      ensures multiplier == Multiplier(probability)
      ensures amount == old(amount) && probability == old(probability) && balance == old(balance)
    {
      multiplier := Multiplier(probability);
    }

    /** "All in": the amount becomes the re-read balance, provided it is at least 1000. */
    method AllIn() returns (accepted: bool)
      requires Valid() && economy.Valid()
      modifies this, economy
      ensures Valid() && economy.Valid()
      ensures economy.data == old(economy.data)[userId := Lookup(old(economy.data), userId)]
      ensures economy.order == Touched(old(economy.order), old(economy.data), userId)
      ensures accepted <==> Lookup(old(economy.data), userId).balance >= 1000
      ensures amount == if accepted then Lookup(old(economy.data), userId).balance else old(amount)
      ensures probability == old(probability) && multiplier == old(multiplier) && balance == old(balance)
    {
      var currentBalance := economy.GetBalance(userId);
      if currentBalance < 1000 {
        return false;
      }
      amount := currentBalance;
      return true;
    }

    /** "+1000". */
    method AddAmount()
      requires Valid() && economy.Valid()
      modifies this, economy
      ensures Valid() && economy.Valid()
      ensures economy.data == old(economy.data)[userId := Lookup(old(economy.data), userId)]
      ensures economy.order == Touched(old(economy.order), old(economy.data), userId)
      ensures amount == AddedAmount(old(amount), Lookup(old(economy.data), userId).balance)
      ensures probability == old(probability) && multiplier == old(multiplier) && balance == old(balance)
    {
      var currentBalance := economy.GetBalance(userId);
      if amount + 1000 <= currentBalance {
        amount := amount + 1000;
      } else {
        amount := currentBalance;
      }
    }

    /** "-1000". */
    method SubAmount()
      requires Valid()
      modifies this
      ensures Valid()
      ensures amount == SubtractedAmount(old(amount))
      ensures probability == old(probability) && multiplier == old(multiplier) && balance == old(balance)
    {
      if amount - 1000 >= 1000 {
        amount := amount - 1000;
      } else {
        amount := 1000;
      }
    }

    /** "Start": opens a session only when the re-read balance covers the amount. */
    method Confirm() returns (game: GambleView?)
      requires Valid() && economy.Valid()
      modifies this, economy
      ensures Valid() && economy.Valid()
      ensures economy.data == old(economy.data)[userId := Lookup(old(economy.data), userId)]
      ensures economy.order == Touched(old(economy.order), old(economy.data), userId)
      ensures game != null <==> Lookup(old(economy.data), userId).balance >= amount
      ensures game != null ==> fresh(game) && game.Valid() && game.Fresh()
      ensures game != null ==> game.userId == userId && game.economy == economy
      ensures game != null ==> game.betAmount == amount && game.probability == probability
      ensures amount == old(amount) && probability == old(probability)
      ensures multiplier == old(multiplier) && balance == old(balance)
    {
      var currentBalance := economy.GetBalance(userId);
      if currentBalance < amount {
        return null;
      }
      game := new GambleView(userId, economy, amount, probability);
    }
  }

  /** The free-text form of a settings panel. */
  class CustomInputModal {
    const view: SettingsView

    constructor (view: SettingsView)
      ensures this.view == view
    {
      this.view := view;
    }

    /** `on_submit`: the panel takes the setting only when every check passes. */
    method OnSubmit(amountText: string, percentText: string) returns (r: Submission)
      requires view.Valid()
      modifies view
      ensures view.Valid()
      ensures r == ValidateInput(amountText, percentText)
      ensures r.Accepted? ==> view.amount == r.setting.amount && view.probability == r.setting.probability
      ensures r.Rejected? ==> view.amount == old(view.amount) && view.probability == old(view.probability)
      ensures view.multiplier == Multiplier(view.probability) && view.balance == old(view.balance)
    {
      var amt := ParseInt(amountText);
      var pct := ParseInt(percentText);
      if amt.None? || pct.None? {
        return Rejected(NotANumber);
      }
      if amt.value < 1000 {
        return Rejected(BelowMinimumBet);
      }
      if !(1 <= pct.value <= 75) {
        return Rejected(ProbabilityOutOfRange);
      }
      view.amount := amt.value;
      view.probability := pct.value as real / 100.0;
      view.UpdateEmbedData();
      r := Accepted(Setting(amt.value, pct.value as real / 100.0));
    }
  }

  // ---------------------------------------------------------------- GambleView

  datatype Button = StartButton | ContinueButton | StopButton

  /** What a press or the timeout did. */
  datatype Outcome =
    | Ignored                 // not the owner, no such button, or the view no longer listens
    | InsufficientFunds
    | Round(won: bool, notes: seq<Notification>, offered: Option<Quest>)
    | Paid(amount: int)
    | Raised                  // the callback raised `TypeError` after its economy call took effect

  /**
   * The economy's records after one round: only the player's record changes, its stats
   * take the game, and only a loss with a second draw below 0.05 can give it a quest.
   */
  function RoundData(data: map<int, UserData>, uid: int, won: bool, risk: real, questRoll: real, target: int): (r: map<int, UserData>)
    requires 3 <= target <= 5
    ensures r.Keys == data.Keys + {uid}
    ensures forall k :: k in data && k != uid ==> r[k] == data[k]
    ensures r[uid].stats == StatsAfter(Lookup(data, uid).stats, won, risk)
    ensures r[uid].balance == RecordedGame(Lookup(data, uid), won, risk).data.balance
    ensures won || questRoll >= 0.05 ==> r[uid].activeQuest == RecordedGame(Lookup(data, uid), won, risk).data.activeQuest
    ensures !won && questRoll < 0.05 ==> r[uid].activeQuest.Some?
  {
    var recorded := AfterRecord(data, uid, won, risk);
    if !won && questRoll < 0.05 then AfterAssign(recorded, uid, target) else recorded
  }

  /**
   * One session. `stopped` is discord.py's state once `View.stop()` was called or the
   * view timed out: no button callback and no timeout runs after that. `buttons` are the
   * buttons the message shows; `credits` counts the times the pot was paid out.
   */
  class GambleView {
    const userId: int
    const economy: EconomyService
    const betAmount: int
    const probability: real
    const multiplier: real
    var currentPot: int
    var gameOver: bool
    var started: bool
    var stopped: bool
    var buttons: set<Button>
    ghost var credits: nat

    /**
     * The session invariant: the pot is paid at most once, and only by ending the session.
     * A started session still listening shows continue and stop, or, once a start callback
     * has raised, the start button it was sent with and the bet still as its pot.
     */
    ghost predicate Valid()
      reads this
    {
      && probability != 0.0 && multiplier == Multiplier(probability)
      && (!started ==> !gameOver && currentPot == betAmount && credits == 0)
      && (!started && !stopped ==> buttons == {StartButton})
      && (started && !stopped ==> !gameOver && credits == 0)
      && (started && !stopped ==> buttons == {ContinueButton, StopButton} || (buttons == {StartButton} && currentPot == betAmount))
      && (stopped ==> buttons == {})
      && (gameOver ==> stopped)
      && credits <= 1 && (credits == 1 ==> stopped)
    }

    /** The state of a session nobody has started yet. */
    ghost predicate Fresh()
      reads this
    {
      && currentPot == betAmount && !gameOver && !started && !stopped
      && buttons == {StartButton} && credits == 0
    }

    /**
     * Whether discord.py would run the callback of `button` pressed by `actor`: the owner
     * (`interaction_check`), on a view still listening, on a button its message shows.
     * On a valid session an accepted press never meets a lost or paid-out game, and any
     * button but start belongs to a started one.
     */
    predicate Accepts(actor: int, button: Button)
      reads this
      ensures Accepts(actor, button) && Valid() ==> actor == userId && !gameOver && credits == 0
      ensures Accepts(actor, button) && Valid() && button != StartButton ==> started
    {
      !stopped && actor == userId && button in buttons
    }

    constructor (userId: int, economy: EconomyService, amount: int, probability: real)
      requires probability != 0.0
      ensures Valid() && Fresh()
      ensures this.userId == userId && this.economy == economy
      ensures betAmount == amount && this.probability == probability && multiplier == Multiplier(probability)
    {
      this.userId := userId;
      this.economy := economy;
      betAmount := amount;
      this.probability := probability;
      multiplier := Multiplier(probability);
      currentPot := amount;
      gameOver := false;
      started := false;
      stopped := false;
      buttons := {StartButton};
      credits := 0;
    }

    /**
     * `run_round`: a win iff `roll < probability`. A win multiplies the pot and offers
     * continue and stop; a loss zeroes the pot, ends the session and, when the second
     * draw is below 0.05, tries to assign a quest.
     */
    method RunRound(roll: real, questRoll: real, questTarget: int) returns (outcome: Outcome)
      requires Valid() && economy.Valid() && started && !stopped && 3 <= questTarget <= 5
      modifies this, economy
      ensures Valid() && economy.Valid() && started && credits == old(credits)
      ensures outcome.Round? && (outcome.won <==> roll < probability)
      ensures outcome.notes == RecordedGame(Lookup(old(economy.data), userId), outcome.won, probability).notes
      ensures economy.data == RoundData(old(economy.data), userId, outcome.won, probability, questRoll, questTarget)
      ensures economy.order == Touched(old(economy.order), old(economy.data), userId)
      ensures outcome.won ==> currentPot == WinPot(old(currentPot), multiplier) && !gameOver && !stopped
                              && buttons == {ContinueButton, StopButton}
      ensures !outcome.won ==> currentPot == 0 && gameOver && stopped
      ensures outcome.offered.Some? ==> !outcome.won && questRoll < 0.05
      ensures !outcome.won && questRoll < 0.05
              ==> outcome.offered == QuestAssigned(Lookup(AfterRecord(old(economy.data), userId, false, probability), userId), questTarget).1
    {
      var success := roll < probability;
      var notes := economy.RecordGameResult(userId, success, probability);
      if success {
        currentPot := WinPot(currentPot, multiplier);
        buttons := {ContinueButton, StopButton};
        return Round(true, notes, None);
      }
      currentPot := 0;
      gameOver := true;
      buttons := {};
      stopped := true;
      var offered := None;
      if questRoll < 0.05 {
        offered := economy.AssignQuest(userId, questTarget);
      }
      outcome := Round(false, notes, offered);
    }

    /** `start_game`: debit the bet once; without the funds, stop without playing a round. */
    method StartGame(actor: int, roll: real, questRoll: real, questTarget: int) returns (outcome: Outcome)
      requires Valid() && economy.Valid() && 3 <= questTarget <= 5
      modifies this, economy
      ensures Valid() && economy.Valid() && credits == old(credits)
      ensures !old(Accepts(actor, StartButton)) ==> outcome == Ignored && unchanged(this) && unchanged(economy)
      ensures old(Accepts(actor, StartButton)) ==> started
      ensures old(Accepts(actor, StartButton)) ==> economy.order == Touched(old(economy.order), old(economy.data), userId)
      ensures old(Accepts(actor, StartButton)) && !Funds(old(economy.data), userId, betAmount)
              ==> && outcome == InsufficientFunds && stopped && !gameOver && currentPot == old(currentPot)
                  && economy.data == AfterRemove(old(economy.data), userId, betAmount)
      ensures old(Accepts(actor, StartButton)) && Funds(old(economy.data), userId, betAmount)
              ==> && outcome.Round? && (outcome.won <==> roll < probability)
                  && economy.data == RoundData(AfterRemove(old(economy.data), userId, betAmount), userId, outcome.won, probability, questRoll, questTarget)
                  && (outcome.won ==> currentPot == WinPot(betAmount, multiplier) && !stopped
                                      && buttons == {ContinueButton, StopButton})
                  && (!outcome.won ==> currentPot == 0 && gameOver && stopped)
    {
      if !Accepts(actor, StartButton) {
        return Ignored;
      }
      buttons := {};
      started := true;
      var ok := economy.RemoveBalance(userId, betAmount);
      if !ok {
        stopped := true;
        return InsufficientFunds;
      }
      // a proof device: `run_round` adds these buttons itself; showing them now lets it start from `Valid()`
      buttons := {ContinueButton, StopButton};
      outcome := RunRound(roll, questRoll, questTarget);
    }

    /**
     * `start_game` as written: it `await`s the synchronous `remove_balance`, whose result
     * is a plain bool, so the callback raises `TypeError` once the debit (or the creation
     * of the record) has taken effect. `clear_items` emptied only the view object: the
     * message is never edited, so it still shows the start button, and the view, started,
     * goes on listening until its timeout. Another press runs the callback again.
     */
    method StartGameAsWritten(actor: int) returns (outcome: Outcome)
      requires Valid() && economy.Valid()
      modifies this, economy
      ensures Valid() && economy.Valid() && credits == old(credits)
      ensures !old(Accepts(actor, StartButton)) ==> outcome == Ignored && unchanged(this) && unchanged(economy)
      ensures old(Accepts(actor, StartButton))
              ==> && outcome == Raised && started && !stopped && !gameOver && buttons == {StartButton}
                  && currentPot == betAmount
                  && economy.data == AfterRemove(old(economy.data), userId, betAmount)
                  && economy.order == Touched(old(economy.order), old(economy.data), userId)
    {
      if !Accepts(actor, StartButton) {
        return Ignored;
      }
      started := true;
      var ok := economy.RemoveBalance(userId, betAmount);
      outcome := Raised;
    }

    /** `continue_game`: another round at the same probability. */
    method ContinueGame(actor: int, roll: real, questRoll: real, questTarget: int) returns (outcome: Outcome)
      requires Valid() && economy.Valid() && 3 <= questTarget <= 5
      modifies this, economy
      ensures Valid() && economy.Valid() && credits == old(credits)
      ensures !old(Accepts(actor, ContinueButton)) ==> outcome == Ignored && unchanged(this) && unchanged(economy)
      ensures old(Accepts(actor, ContinueButton))
              ==> && outcome.Round? && (outcome.won <==> roll < probability)
                  && economy.data == RoundData(old(economy.data), userId, outcome.won, probability, questRoll, questTarget)
                  && economy.order == Touched(old(economy.order), old(economy.data), userId)
                  && (outcome.won ==> currentPot == WinPot(old(currentPot), multiplier) && !stopped
                                      && buttons == {ContinueButton, StopButton})
                  && (!outcome.won ==> currentPot == 0 && gameOver && stopped)
    {
      if !Accepts(actor, ContinueButton) {
        return Ignored;
      }
      outcome := RunRound(roll, questRoll, questTarget);
    }

    /** `stop_game`: credit exactly the pot and end the session. */
    method StopGame(actor: int) returns (outcome: Outcome)
      requires Valid() && economy.Valid()
      modifies this, economy
      ensures Valid() && economy.Valid()
      ensures !old(Accepts(actor, StopButton)) ==> outcome == Ignored && unchanged(this) && unchanged(economy)
      ensures old(Accepts(actor, StopButton))
              ==> && outcome == Paid(old(currentPot)) && currentPot == old(currentPot)
                  && gameOver && stopped && credits == 1 && old(credits) == 0
                  && economy.data == AfterAdd(old(economy.data), userId, old(currentPot))
                  && economy.order == Touched(old(economy.order), old(economy.data), userId)
    {
      if !Accepts(actor, StopButton) {
        return Ignored;
      }
      gameOver := true;
      economy.AddBalance(userId, currentPot);
      credits := credits + 1;
      buttons := {};
      stopped := true;
      outcome := Paid(currentPot);
    }

    /**
     * The view timing out: discord.py runs `on_timeout` only on a view still listening,
     * and it credits the pot only when the game started, is not over, and the pot is positive.
     */
    method OnTimeout() returns (outcome: Outcome)
      requires Valid() && economy.Valid()
      modifies this, economy
      ensures Valid() && economy.Valid() && stopped && currentPot == old(currentPot) && gameOver == old(gameOver)
      ensures old(stopped) ==> outcome == Ignored && unchanged(this) && unchanged(economy)
      ensures !old(stopped) && old(started) && !old(gameOver) && old(currentPot) > 0
              ==> && outcome == Paid(old(currentPot)) && credits == 1 && old(credits) == 0
                  && economy.data == AfterAdd(old(economy.data), userId, old(currentPot))
                  && economy.order == Touched(old(economy.order), old(economy.data), userId)
      ensures !(!old(stopped) && old(started) && !old(gameOver) && old(currentPot) > 0)
              ==> outcome == Ignored && credits == old(credits) && unchanged(economy)
    {
      if stopped {
        return Ignored;
      }
      outcome := Ignored;
      if started && !gameOver && currentPot > 0 {
        economy.AddBalance(userId, currentPot);
        credits := credits + 1;
        outcome := Paid(currentPot);
      }
      buttons := {};
      stopped := true;
    }
  }

  /**
   * What one raised start leaves for the timeout: the pot is still the bet, so the bet is
   * credited. A player who covered it gets back exactly what was debited, with no round
   * recorded; one who could not was never debited, and gains the bet.
   */
  lemma AsWrittenStartRefunds(data: map<int, UserData>, uid: int, bet: int)
    ensures Funds(data, uid, bet) ==> AfterAdd(AfterRemove(data, uid, bet), uid, bet) == data[uid := Lookup(data, uid)]
    ensures !Funds(data, uid, bet) ==>
              AfterAdd(AfterRemove(data, uid, bet), uid, bet)[uid].balance == Lookup(data, uid).balance + bet
  {
    if Funds(data, uid, bet) {
      RemoveThenAddRestores(data, uid, bet);
    }
  }

  /** The data after `presses` calls of `remove_balance(uid, amount)`. */
  function RemovedTimes(data: map<int, UserData>, uid: int, amount: int, presses: nat): map<int, UserData>
    decreases presses
  {
    if presses == 0 then data else AfterRemove(RemovedTimes(data, uid, amount, presses - 1), uid, amount)
  }

  /** Debits the balance covers all go ahead: `presses` of them take `presses` amounts, and no other record changes. */
  lemma {:induction false} RemovedTimesDebits(data: map<int, UserData>, uid: int, amount: int, presses: nat)
    requires amount >= 0 && Lookup(data, uid).balance >= presses * amount
    ensures Lookup(RemovedTimes(data, uid, amount, presses), uid).balance == Lookup(data, uid).balance - presses * amount
    ensures forall k :: k in data && k != uid ==>
              k in RemovedTimes(data, uid, amount, presses) && RemovedTimes(data, uid, amount, presses)[k] == data[k]
  {
    if presses > 0 {
      assert presses * amount == (presses - 1) * amount + amount;
      assert (presses - 1) * amount <= presses * amount;
      RemovedTimesDebits(data, uid, amount, presses - 1);
      var prev := RemovedTimes(data, uid, amount, presses - 1);
      assert Funds(prev, uid, amount);
    }
  }

  /**
   * The damage of the raised start: each press on the start button the message still shows
   * debits another bet, and the timeout refunds only one. A player who covered every press
   * ends `presses - 1` bets poorer with no round played.
   */
  lemma AsWrittenRepressesLoseBets(data: map<int, UserData>, uid: int, bet: int, presses: nat)
    requires bet >= 0 && presses >= 1 && Lookup(data, uid).balance >= presses * bet
    ensures AfterAdd(RemovedTimes(data, uid, bet, presses), uid, bet)[uid].balance
            == Lookup(data, uid).balance - (presses - 1) * bet
  {
    RemovedTimesDebits(data, uid, bet, presses);
    assert presses * bet == (presses - 1) * bet + bet;
  }

  /**
   * A fresh session as written: the owner presses start `presses` times, each press raising
   * after its debit, and the timeout that follows credits the bet once.
   */
  method PressesThenTimeoutAsWritten(view: GambleView, presses: nat) returns (timeout: Outcome)
    requires view.Valid() && view.economy.Valid() && view.Fresh() && view.betAmount > 0 && presses >= 1
    modifies view, view.economy
    ensures view.Valid() && view.economy.Valid()
    ensures timeout == Paid(view.betAmount) && view.credits == 1 && view.stopped
    ensures view.economy.data
            == AfterAdd(RemovedTimes(old(view.economy.data), view.userId, view.betAmount, presses), view.userId, view.betAmount)
  {
    var i := 0;
    while i < presses
      invariant 0 <= i <= presses
      invariant view.Valid() && view.economy.Valid()
      invariant view.economy.data == RemovedTimes(old(view.economy.data), view.userId, view.betAmount, i)
      invariant !view.stopped && !view.gameOver && view.buttons == {StartButton}
      invariant view.currentPot == view.betAmount && view.credits == 0
      invariant i > 0 ==> view.started
    {
      var start := view.StartGameAsWritten(view.userId);
      assert start == Raised;
      i := i + 1;
    }
    timeout := view.OnTimeout();
  }

  // ---------------------------------------------------------------- the commands that change the economy

  /** The `give` command: credit the caller 5000. */
  method Give(economy: EconomyService, actor: int)
    requires economy.Valid()
    modifies economy
    ensures economy.Valid()
    ensures economy.data == AfterAdd(old(economy.data), actor, 5000)
    ensures economy.order == Touched(old(economy.order), old(economy.data), actor)
  {
    economy.AddBalance(actor, 5000);
  }

  /** The `gamble` command: a settings panel for the caller, showing the balance `get_balance` reads. */
  method Gamble(economy: EconomyService, actor: int) returns (view: SettingsView)
    requires economy.Valid()
    modifies economy
    ensures economy.Valid() && fresh(view) && view.Valid()
    ensures view.userId == actor && view.economy == economy
    ensures view.balance == Lookup(old(economy.data), actor).balance
    ensures view.amount == 1000 && view.probability == 0.5
    ensures economy.data == old(economy.data)[actor := Lookup(old(economy.data), actor)]
    ensures economy.order == Touched(old(economy.order), old(economy.data), actor)
  {
    var balance := economy.GetBalance(actor);
    view := new SettingsView(actor, economy, balance);
  }
}
