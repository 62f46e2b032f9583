/** The risk rules of the trader skill: risk-based position sizing, trade
    validation, ATR stop-loss and take-profit, the stateless trailing-stop
    rule and the daily-limit gate.  Every rule reads a fixed `Limits` record
    (the `risk_limits` section of the configuration) and its arguments. */
module RiskManager {
  import opened Basics

  datatype Limits = Limits(
    maxPositionSizeUsdt: real,
    maxOpenPositions: int,
    maxDailyLossUsdt: real,
    maxDailyTrades: int,
    trailingActivationPercent: real,
    trailingDistancePercent: real)

  /** Only the exact side "BUY" is a long; every other string is treated as a short. */
  predicate IsBuy(side: string) {
    side == "BUY"
  }

  // ---------------------------------------------------------------------
  // Position sizing
  // ---------------------------------------------------------------------

  datatype Sizing = Sizing(quantity: real, positionUsdt: real, riskAmount: real)

  /** `calculate_position_size`: risk 2% of the balance on the distance to the
      stop, capped by the configured maximum.  Python raises
      ZeroDivisionError for a zero entry price or a stop equal to the entry,
      so those are excluded here. */
  function PositionSize(limits: Limits, entry: real, stop: real, balance: real): (r: Sizing)
    requires entry != 0.0 && entry != stop
    ensures r.riskAmount == balance * 0.02
    ensures r.positionUsdt <= limits.maxPositionSizeUsdt
    ensures r.positionUsdt == limits.maxPositionSizeUsdt
            || r.positionUsdt * AbsReal(entry - stop) == r.riskAmount * entry
    ensures r.quantity * entry == r.positionUsdt
  {
    var risk := balance * 0.02;
    var priceRisk := AbsReal(entry - stop);
    var maxPositionUsdt := risk / (priceRisk / entry);
    var positionUsdt := MinReal(maxPositionUsdt, limits.maxPositionSizeUsdt);
    Sizing(positionUsdt / entry, positionUsdt, risk)
  }

  /** The loss taken if the stop is hit never exceeds the 2% risk budget. */
  lemma PositionSizeRiskBounded(limits: Limits, entry: real, stop: real, balance: real)
    requires entry > 0.0 && entry != stop
    ensures PositionSize(limits, entry, stop, balance).quantity * AbsReal(entry - stop)
            <= balance * 0.02
  {
    var r := PositionSize(limits, entry, stop, balance);
    var d := AbsReal(entry - stop);
    assert r.positionUsdt <= (balance * 0.02) / (d / entry);
    assert r.quantity == r.positionUsdt / entry;
    calc {
      r.quantity * d;
      == r.positionUsdt * d / entry;
      <= ((balance * 0.02) / (d / entry)) * d / entry;
      == balance * 0.02;
    }
  }

  /** Balance 1000, entry 50000, stop 48500 and a 500 cap give 0.01 units. */
  lemma PositionSizeExample()
    ensures PositionSize(Limits(500.0, 3, 50.0, 10, 3.0, 1.5), 50000.0, 48500.0, 1000.0).quantity == 0.01
  {
    var r := PositionSize(Limits(500.0, 3, 50.0, 10, 3.0, 1.5), 50000.0, 48500.0, 1000.0);
    assert (1000.0 * 0.02) / (1500.0 / 50000.0) == 2000.0 / 3.0;
    assert r.positionUsdt == 500.0;
  }

  // ---------------------------------------------------------------------
  // Trade validation
  // ---------------------------------------------------------------------

  datatype Validation =
    | Approved
    | ExceedsMaxSize
    | AtMaxPositions
    | DailyLossExceeded
    | BelowMinimum

  predicate IsApproved(v: Validation) {
    v == Approved
  }

  /** `validate_trade`: four checks in a fixed order; the trade is refused
      for the first one that fails, so each refusal means that its own check
      fails and every earlier one passes. */
  function ValidateTrade(limits: Limits, side: string, positionUsdt: real,
                         currentPositions: int, dailyPnl: real): (r: Validation)
    ensures r == Approved <==>
              positionUsdt <= limits.maxPositionSizeUsdt * 1.01
              && currentPositions < limits.maxOpenPositions
              && dailyPnl >= -limits.maxDailyLossUsdt
              && positionUsdt >= 10.0
    ensures r == ExceedsMaxSize <==> positionUsdt > limits.maxPositionSizeUsdt * 1.01
    ensures r == AtMaxPositions <==>
              positionUsdt <= limits.maxPositionSizeUsdt * 1.01
              && currentPositions >= limits.maxOpenPositions
    ensures r == DailyLossExceeded <==>
              positionUsdt <= limits.maxPositionSizeUsdt * 1.01
              && currentPositions < limits.maxOpenPositions
              && dailyPnl < -limits.maxDailyLossUsdt
    ensures r == BelowMinimum <==>
              positionUsdt <= limits.maxPositionSizeUsdt * 1.01
              && currentPositions < limits.maxOpenPositions
              && dailyPnl >= -limits.maxDailyLossUsdt
              && positionUsdt < 10.0
  {
    if positionUsdt > limits.maxPositionSizeUsdt * 1.01 then ExceedsMaxSize
    else if currentPositions >= limits.maxOpenPositions then AtMaxPositions
    else if dailyPnl < -limits.maxDailyLossUsdt then DailyLossExceeded
    else if positionUsdt < 10.0 then BelowMinimum
    else Approved
  }

  /** The side plays no part in validation. */
  lemma ValidateIgnoresSide(limits: Limits, a: string, b: string, usdt: real, n: int, pnl: real)
    ensures ValidateTrade(limits, a, usdt, n, pnl) == ValidateTrade(limits, b, usdt, n, pnl)
  {
  }

  // ---------------------------------------------------------------------
  // ATR levels
  // ---------------------------------------------------------------------

  /** `calculate_stop_loss`: two ATRs against the position. */
  function StopLoss(entry: real, atr: real, side: string): (r: real)
    ensures IsBuy(side) ==> entry - r == 2.0 * atr
    ensures !IsBuy(side) ==> r - entry == 2.0 * atr
  {
    if IsBuy(side) then entry - 2.0 * atr else entry + 2.0 * atr
  }

  /** `calculate_take_profit`: three ATRs in favour of the position. */
  function TakeProfit(entry: real, atr: real, side: string): (r: real)
    ensures IsBuy(side) ==> r - entry == 3.0 * atr
    ensures !IsBuy(side) ==> entry - r == 3.0 * atr
  {
    if IsBuy(side) then entry + 3.0 * atr else entry - 3.0 * atr
  }

  /** With a positive ATR the entry lies strictly between the two levels, on
      the side the position faces, and the reward is 1.5 times the risk. */
  lemma AtrLevelsBracketEntry(entry: real, atr: real, side: string)
    requires atr > 0.0
    ensures IsBuy(side) ==> StopLoss(entry, atr, side) < entry < TakeProfit(entry, atr, side)
    ensures !IsBuy(side) ==> TakeProfit(entry, atr, side) < entry < StopLoss(entry, atr, side)
    ensures AbsReal(TakeProfit(entry, atr, side) - entry)
            == 1.5 * AbsReal(entry - StopLoss(entry, atr, side))
  {
  }

  lemma AtrLevelsExample()
    ensures StopLoss(100.0, 2.0, "BUY") == 96.0 && TakeProfit(100.0, 2.0, "BUY") == 106.0
  {
  }

  // ---------------------------------------------------------------------
  // Trailing stop
  // ---------------------------------------------------------------------

  datatype Trailing = Trailing(activate: bool, newStop: real)

  /** `calculate_trailing_stop`: active once the profit reaches the activation
      percentage; the stop then trails the current price by the distance
      percentage.  Python divides by the entry price, so zero is excluded. */
  function TrailingStop(limits: Limits, entry: real, current: real, atr: real, side: string): (r: Trailing)
    requires entry != 0.0
    ensures IsBuy(side) ==>
              (r.activate <==> (current - entry) / entry >= limits.trailingActivationPercent / 100.0)
    ensures !IsBuy(side) ==>
              (r.activate <==> (entry - current) / entry >= limits.trailingActivationPercent / 100.0)
    ensures r.activate && IsBuy(side) ==>
              r.newStop == current * (1.0 - limits.trailingDistancePercent / 100.0)
    ensures r.activate && !IsBuy(side) ==>
              r.newStop == current * (1.0 + limits.trailingDistancePercent / 100.0)
    ensures !r.activate ==> r.newStop == 0.0
  {
    var activation := limits.trailingActivationPercent / 100.0;
    var distance := limits.trailingDistancePercent / 100.0;
    if IsBuy(side) then
      var profit := (current - entry) / entry;
      if profit >= activation then Trailing(true, current * (1.0 - distance)) else Trailing(false, 0.0)
    else
      var profit := (entry - current) / entry;
      if profit >= activation then Trailing(true, current * (1.0 + distance)) else Trailing(false, 0.0)
  }

  /** For a long with a positive entry: a higher price keeps the rule active
      and never yields a lower stop (when the distance is at most 100%). */
  lemma TrailingStopMonotone(limits: Limits, entry: real, c1: real, c2: real, atr: real)
    requires entry > 0.0 && c1 <= c2
    requires limits.trailingDistancePercent <= 100.0
    requires TrailingStop(limits, entry, c1, atr, "BUY").activate
    ensures TrailingStop(limits, entry, c2, atr, "BUY").activate
    ensures TrailingStop(limits, entry, c1, atr, "BUY").newStop
            <= TrailingStop(limits, entry, c2, atr, "BUY").newStop
  {
    DivLeRight(c1 - entry, c2 - entry, entry);
    MulLeRight(c1, c2, 1.0 - limits.trailingDistancePercent / 100.0);
  }

  /** 3% activation, 1.5% distance, entry 50000 and price 51600 give a stop of 50826. */
  lemma TrailingStopExample()
    ensures TrailingStop(Limits(500.0, 3, 50.0, 10, 3.0, 1.5), 50000.0, 51600.0, 0.0, "BUY")
            == Trailing(true, 50826.0)
  {
  }

  // ---------------------------------------------------------------------
  // Daily limits
  // ---------------------------------------------------------------------

  datatype DailyCheck =
    | WithinLimits
    | TradeLimitReached(trades: int, maxTrades: int)
    | LossLimitHit(pnl: real)

  predicate CanTrade(d: DailyCheck) {
    d.WithinLimits?
  }

  /** `check_daily_limits`: the trade count is checked before the loss. */
  function CheckDailyLimits(limits: Limits, tradesToday: int, pnlToday: real): (r: DailyCheck)
    ensures CanTrade(r) <==> tradesToday < limits.maxDailyTrades && pnlToday >= -limits.maxDailyLossUsdt
    ensures tradesToday >= limits.maxDailyTrades ==> r == TradeLimitReached(tradesToday, limits.maxDailyTrades)
    ensures r.LossLimitHit? ==> tradesToday < limits.maxDailyTrades && r.pnl == pnlToday
  {
    if tradesToday >= limits.maxDailyTrades then TradeLimitReached(tradesToday, limits.maxDailyTrades)
    else if pnlToday < -limits.maxDailyLossUsdt then LossLimitHit(pnlToday)
    else WithinLimits
  }

  /** Reaching the trade limit blocks trading whatever the day's P&L. */
  lemma TradeLimitIgnoresPnl(limits: Limits, trades: int, p1: real, p2: real)
    requires trades >= limits.maxDailyTrades
    ensures CheckDailyLimits(limits, trades, p1) == CheckDailyLimits(limits, trades, p2)
    ensures !CanTrade(CheckDailyLimits(limits, trades, p1))
  {
  }
}
