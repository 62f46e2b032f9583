/** The rules of the backtest engine that concern one trade: trading costs
    with slippage and fees, balance-tier sizing, the levels of a new
    position, the trailing-stop ratchet, the exit rule for one candle, and
    the timeframe string. */
module BacktestModel {
  import opened Basics
  import opened Text

  /** The engine's settings: the constructor's balance, its fee and slippage
      percentages already divided by 100, and the risk and scanner entries of
      the configuration file. */
  datatype Config = Config(
    initialBalance: real,
    tradingFee: real,
    slippage: real,
    maxPositionSize: real,
    maxPositions: int,
    stopLossPct: real,
    takeProfitPct: real,
    minScore: int,
    timeframe: string)

  /** Settings under which the engine's arithmetic is meaningful: a positive
      starting balance (the drawdown divides by the peak balance), fee and
      slippage below 100%, a positive size cap and a stop below the entry. */
  predicate ConfigOk(cfg: Config) {
    cfg.initialBalance > 0.0
    && 0.0 <= cfg.tradingFee < 1.0 && 0.0 <= cfg.slippage < 1.0
    && cfg.maxPositionSize > 0.0 && cfg.maxPositions >= 0
    && 0.0 <= cfg.stopLossPct < 100.0 && cfg.takeProfitPct >= 0.0
  }

  /** One OHLCV candle; the timestamp is in milliseconds. */
  datatype Candle = Candle(timestamp: int, open: real, high: real, low: real, close: real, volume: real)

  datatype Side = Buy | Sell

  // ---------------------------------------------------------------------
  // apply_trading_costs
  // ---------------------------------------------------------------------

  /** A buy pays the slippage, a sell gives it up. */
  function SlippageFactor(side: Side, slippage: real): (f: real)
    ensures side == Buy ==> f == 1.0 + slippage
    ensures side == Sell ==> f == 1.0 - slippage
  {
    if side == Buy then 1.0 + slippage else 1.0 - slippage
  }

  datatype Costs = Costs(actualPrice: real, total: real)

  /** The executed price and the cash that changes hands: a buy costs the
      value plus the fee, a sell brings in the value less the fee. */
  function TradingCosts(price: real, quantity: real, side: Side, slippage: real, fee: real): (c: Costs)
    ensures c.actualPrice == price * SlippageFactor(side, slippage)
    ensures side == Buy ==> c.total == c.actualPrice * quantity * (1.0 + fee)
    ensures side == Sell ==> c.total == c.actualPrice * quantity * (1.0 - fee)
  {
    var actualPrice := price * SlippageFactor(side, slippage);
    var positionValue := actualPrice * quantity;
    var feeAmount := positionValue * fee;
    Costs(actualPrice, if side == Buy then positionValue + feeAmount else positionValue - feeAmount)
  }

  /** Slippage works against the trader on both legs, and a round trip at one
      price never returns more than it cost. */
  lemma TradingCostsAgainstTrader(price: real, quantity: real, slippage: real, fee: real)
    requires price > 0.0 && quantity >= 0.0 && 0.0 <= slippage < 1.0 && 0.0 <= fee < 1.0
    ensures TradingCosts(price, quantity, Buy, slippage, fee).actualPrice >= price
    ensures TradingCosts(price, quantity, Sell, slippage, fee).actualPrice <= price
    ensures TradingCosts(price, quantity, Buy, slippage, fee).total >= price * quantity
    ensures TradingCosts(price, quantity, Sell, slippage, fee).total <= price * quantity
  {
    var buy := TradingCosts(price, quantity, Buy, slippage, fee);
    var sell := TradingCosts(price, quantity, Sell, slippage, fee);
    assert buy.actualPrice == price * (1.0 + slippage) && sell.actualPrice == price * (1.0 - slippage);
    MulLeRight(1.0, 1.0 + slippage, price);
    MulLeRight(1.0 - slippage, 1.0, price);
    MulLeRight(price, buy.actualPrice, quantity);
    MulLeRight(0.0, price * quantity, 1.0 + fee);
    MulLeRight(1.0, 1.0 + fee, buy.actualPrice * quantity);
    MulPositive(price, 1.0 - slippage);
    MulLeRight(sell.actualPrice, price, quantity);
    MulLeRight(0.0, sell.actualPrice, quantity);
    MulLeRight(1.0 - fee, 1.0, sell.actualPrice * quantity);
  }

  lemma MulPositive(a: real, b: real)
    requires a > 0.0 && b > 0.0
    ensures a * b > 0.0
  {
  }

  lemma MulBelow(a: real, b: real, c: real)
    requires a > 0.0 && b < c
    ensures a * b < a * c
  {
  }

  /** A sale at a positive price of a positive quantity brings in cash. */
  lemma SaleProceedsPositive(price: real, quantity: real, slippage: real, fee: real)
    requires price > 0.0 && quantity > 0.0 && 0.0 <= slippage < 1.0 && 0.0 <= fee < 1.0
    ensures TradingCosts(price, quantity, Sell, slippage, fee).total > 0.0
  {
    var c := TradingCosts(price, quantity, Sell, slippage, fee);
    MulPositive(price, 1.0 - slippage);
    MulPositive(c.actualPrice, quantity);
    MulPositive(c.actualPrice * quantity, 1.0 - fee);
  }

  // ---------------------------------------------------------------------
  // calculate_position_size (balance tiers)
  // ---------------------------------------------------------------------

  function TierFraction(balance: real): real {
    if balance < 50.0 then 0.20 else if balance < 200.0 then 0.15 else 0.10
  }

  /** The quote amount of a new position: a share of the balance that shrinks
      as the balance grows, capped at the maximum position size. */
  function PositionUsdt(cfg: Config, balance: real): (u: real)
    ensures u <= cfg.maxPositionSize
    ensures u == cfg.maxPositionSize || u == balance * TierFraction(balance)
    ensures balance >= 0.0 ==> u <= balance * 0.2
    ensures balance > 0.0 && cfg.maxPositionSize > 0.0 ==> u > 0.0
  {
    MinReal(balance * TierFraction(balance), cfg.maxPositionSize)
  }

  /** The quantity bought: the quote amount at the entry price.  The stop
      and the pair play no part. */
  function PositionQuantity(cfg: Config, balance: real, entryPrice: real): (q: real)
    requires entryPrice != 0.0
    ensures q * entryPrice == PositionUsdt(cfg, balance)
    ensures entryPrice > 0.0 && balance > 0.0 && cfg.maxPositionSize > 0.0 ==> q > 0.0
  {
    PositionUsdt(cfg, balance) / entryPrice
  }

  /** One balance from each tier, and one that hits the cap. */
  lemma PositionUsdtTiers(cfg: Config)
    requires cfg.maxPositionSize == 500.0
    ensures PositionUsdt(cfg, 40.0) == 8.0
    ensures PositionUsdt(cfg, 100.0) == 15.0
    ensures PositionUsdt(cfg, 1000.0) == 100.0
    ensures PositionUsdt(cfg, 10000.0) == 500.0
  {
  }

  // ---------------------------------------------------------------------
  // Positions (the position dict of open_position)
  // ---------------------------------------------------------------------

  datatype Position = Position(
    pair: string,
    entryPrice: real,
    quantity: real,
    stopLoss: real,
    takeProfit: real,
    entryTimestamp: int,
    score: int,
    positionValue: real,
    trailingStop: real,
    trailingActive: bool,
    highestPrice: real)

  /** What every open position satisfies: positive price, quantity, cost and
      levels, a high-water mark not below the entry, and, until the trailing
      stop activates, the stop loss as the stop and below the entry. */
  predicate Sane(p: Position) {
    p.entryPrice > 0.0 && p.quantity > 0.0 && p.positionValue > 0.0
    && p.stopLoss > 0.0 && p.takeProfit > 0.0 && p.trailingStop > 0.0
    && p.highestPrice >= p.entryPrice
    && (!p.trailingActive ==> p.trailingStop == p.stopLoss && p.stopLoss <= p.entryPrice)
  }

  /** The position `open_position` would create for a raw entry price.  The
      stop and the target come from the raw price; the entry price stored is
      the slipped one; the cost is the buy total. */
  function Candidate(cfg: Config, balance: real, pair: string, rawPrice: real, score: int, timestamp: int): (p: Position)
    requires rawPrice != 0.0
    ensures p.pair == pair && p.score == score && p.entryTimestamp == timestamp
    ensures p.stopLoss == rawPrice * (1.0 - cfg.stopLossPct / 100.0)
    ensures p.takeProfit == rawPrice * (1.0 + cfg.takeProfitPct / 100.0)
    ensures p.quantity == PositionQuantity(cfg, balance, rawPrice)
    ensures p.entryPrice == TradingCosts(rawPrice, p.quantity, Buy, cfg.slippage, cfg.tradingFee).actualPrice
    ensures p.positionValue == TradingCosts(rawPrice, p.quantity, Buy, cfg.slippage, cfg.tradingFee).total
    ensures p.trailingStop == p.stopLoss && !p.trailingActive && p.highestPrice == p.entryPrice
  {
    var stopLoss := rawPrice * (1.0 - cfg.stopLossPct / 100.0);
    var takeProfit := rawPrice * (1.0 + cfg.takeProfitPct / 100.0);
    var quantity := PositionQuantity(cfg, balance, rawPrice);
    var costs := TradingCosts(rawPrice, quantity, Buy, cfg.slippage, cfg.tradingFee);
    Position(pair, costs.actualPrice, quantity, stopLoss, takeProfit, timestamp, score,
             costs.total, stopLoss, false, costs.actualPrice)
  }

  /** A candidate opened from a positive balance is sane and costs less than
      the balance: at most a fifth of it, grossed up by slippage and fee. */
  lemma CandidateSane(cfg: Config, balance: real, pair: string, rawPrice: real, score: int, timestamp: int)
    requires ConfigOk(cfg) && balance > 0.0 && rawPrice > 0.0
    ensures Sane(Candidate(cfg, balance, pair, rawPrice, score, timestamp))
    ensures Candidate(cfg, balance, pair, rawPrice, score, timestamp).positionValue < balance
  {
    var p := Candidate(cfg, balance, pair, rawPrice, score, timestamp);
    assert p.quantity > 0.0;
    BuyCostBelowBalance(balance, PositionUsdt(cfg, balance), rawPrice, p.quantity, p.entryPrice,
                        cfg.slippage, cfg.tradingFee, p.positionValue);
    StopAndTargetAroundRaw(cfg, rawPrice);
    assert p.entryPrice > 0.0 && p.positionValue > 0.0;
    assert p.stopLoss == rawPrice * (1.0 - cfg.stopLossPct / 100.0) == p.trailingStop;
    assert p.stopLoss > 0.0 && p.takeProfit > 0.0;
    assert p.highestPrice >= p.entryPrice;
    assert p.stopLoss <= rawPrice <= p.entryPrice;
  }

  /** The arithmetic behind CandidateSane: a quote amount of at most a fifth
      of the balance, grossed up by slippage and fee (each below 100%), stays
      below the balance. */
  lemma BuyCostBelowBalance(balance: real, usdt: real, rawPrice: real, quantity: real, entry: real,
                            slippage: real, fee: real, total: real)
    requires balance > 0.0 && 0.0 < usdt <= balance * 0.2 && rawPrice > 0.0
    requires 0.0 <= slippage < 1.0 && 0.0 <= fee < 1.0
    requires quantity * rawPrice == usdt && entry == rawPrice * (1.0 + slippage)
    requires total == entry * quantity * (1.0 + fee)
    ensures entry > 0.0 && 0.0 < total < balance
  {
    MulPositive(rawPrice, 1.0 + slippage);
    var value := entry * quantity;
    assert value == usdt * (1.0 + slippage) by {
      assert value == (quantity * rawPrice) * (1.0 + slippage);
    }
    MulPositive(usdt, 1.0 + slippage);
    MulBelow(usdt, 1.0 + slippage, 2.0);
    assert 0.0 < value < usdt * 2.0;
    assert total == value * (1.0 + fee);
    MulPositive(value, 1.0 + fee);
    MulBelow(value, 1.0 + fee, 2.0);
    assert total < value * 2.0;
    assert total < usdt * 4.0;
  }

  /** The stop is positive and at most the raw price, which is at most the
      slipped entry; the target is positive. */
  lemma StopAndTargetAroundRaw(cfg: Config, rawPrice: real)
    requires ConfigOk(cfg) && rawPrice > 0.0
    ensures 0.0 < rawPrice * (1.0 - cfg.stopLossPct / 100.0) <= rawPrice
    ensures rawPrice <= rawPrice * (1.0 + cfg.slippage)
    ensures rawPrice * (1.0 + cfg.takeProfitPct / 100.0) > 0.0
  {
    MulPositive(rawPrice, 1.0 - cfg.stopLossPct / 100.0);
    MulPositive(rawPrice, 1.0 + cfg.takeProfitPct / 100.0);
    assert rawPrice * (1.0 - cfg.stopLossPct / 100.0) == rawPrice - rawPrice * (cfg.stopLossPct / 100.0);
    assert rawPrice * (1.0 + cfg.slippage) == rawPrice + rawPrice * cfg.slippage;
  }

  // ---------------------------------------------------------------------
  // update_trailing_stop
  // ---------------------------------------------------------------------

  /** The position after one price update: the high-water mark follows the
      price up; at 3% above the entry the trailing stop activates at 1.5%
      below the high-water mark; once active it only moves up. */
  function Ratchet(p: Position, current: real): (q: Position)
    ensures q == p.(highestPrice := q.highestPrice, trailingActive := q.trailingActive,
                    trailingStop := q.trailingStop)
    ensures q.highestPrice == MaxReal(p.highestPrice, current)
    ensures !p.trailingActive ==> (q.trailingActive <==> current >= p.entryPrice * 1.03)
    ensures !p.trailingActive && q.trailingActive ==> q.trailingStop == q.highestPrice * 0.985
    ensures !q.trailingActive ==> q.trailingStop == p.trailingStop
    ensures p.trailingActive ==> q.trailingActive && q.trailingStop == MaxReal(p.trailingStop, q.highestPrice * 0.985)
  {
    var activationThreshold := p.entryPrice * 1.03;
    var highest := if current > p.highestPrice then current else p.highestPrice;
    if !p.trailingActive && current >= activationThreshold then
      p.(highestPrice := highest, trailingActive := true, trailingStop := highest * 0.985)
    else if p.trailingActive then
      var newStop := highest * 0.985;
      p.(highestPrice := highest, trailingStop := if newStop > p.trailingStop then newStop else p.trailingStop)
    else
      p.(highestPrice := highest)
  }

  /** The ratchet keeps a position sane and never lowers its high-water
      mark or its stop, and an active trailing stop stays active. */
  lemma RatchetMonotone(p: Position, current: real)
    requires Sane(p)
    ensures Sane(Ratchet(p, current))
    ensures Ratchet(p, current).highestPrice >= p.highestPrice
    ensures Ratchet(p, current).trailingStop >= p.trailingStop
    ensures p.trailingActive ==> Ratchet(p, current).trailingActive
  {
    var q := Ratchet(p, current);
    if !p.trailingActive && q.trailingActive {
      assert q.highestPrice >= p.entryPrice * 1.03;
      assert q.trailingStop >= p.entryPrice * 1.03 * 0.985;
    }
  }

  /** Worked example: entry 100, price 104 activates the stop at 102.44;
      a later price of 103 leaves it there. */
  lemma RatchetExample(p: Position)
    requires p.entryPrice == 100.0 && p.highestPrice == 100.0 && !p.trailingActive && p.trailingStop == 97.0
    ensures Ratchet(p, 104.0).trailingActive && Ratchet(p, 104.0).trailingStop == 102.44
    ensures Ratchet(Ratchet(p, 104.0), 103.0).trailingStop == 102.44
    ensures Ratchet(p, 102.0).trailingStop == 97.0 && !Ratchet(p, 102.0).trailingActive
  {
  }

  // ---------------------------------------------------------------------
  // The exit rule of check_exits
  // ---------------------------------------------------------------------

  datatype ExitReason = StopLoss | TrailingStop | TakeProfit | BacktestEnd

  datatype Exit = Exit(price: real, reason: ExitReason)

  /** The exit a candle triggers: the stop is tested first, against the low,
      and fills at the stop; otherwise the target, against the high, fills at
      the target. */
  function ExitFor(p: Position, candle: Candle): (r: Option<Exit>)
    ensures r.Some? <==> candle.low <= p.trailingStop || candle.high >= p.takeProfit
    ensures r.Some? ==> r.value.price == p.trailingStop || r.value.price == p.takeProfit
    ensures candle.low <= p.trailingStop ==> r.value.price == p.trailingStop
    ensures r.Some? ==> (r.value.reason == TakeProfit <==> candle.low > p.trailingStop)
    ensures r.Some? ==> (r.value.reason == TrailingStop <==> candle.low <= p.trailingStop && p.trailingActive)
    ensures r.Some? ==> r.value.reason != BacktestEnd
  {
    if candle.low <= p.trailingStop then
      Some(Exit(p.trailingStop, if p.trailingActive then TrailingStop else StopLoss))
    else if candle.high >= p.takeProfit then
      Some(Exit(p.takeProfit, TakeProfit))
    else None
  }

  /** A candle that spans both levels closes at the stop. */
  lemma StopBeatsTarget(p: Position, candle: Candle)
    requires candle.low <= p.trailingStop && candle.high >= p.takeProfit
    ensures ExitFor(p, candle).Some? && ExitFor(p, candle).value.reason != TakeProfit
    ensures ExitFor(p, candle).value.price == p.trailingStop
  {
  }

  /** A sane position exits at a positive price. */
  lemma ExitPricePositive(p: Position, candle: Candle)
    requires Sane(p) && ExitFor(p, candle).Some?
    ensures ExitFor(p, candle).value.price > 0.0
  {
  }

  // ---------------------------------------------------------------------
  // _timeframe_to_ms
  // ---------------------------------------------------------------------

  /** Milliseconds per unit letter. */
  function UnitMs(c: char): Option<int> {
    if c == 'M' then Some(60 * 1000)
    else if c == 'H' then Some(60 * 60 * 1000)
    else if c == 'D' then Some(24 * 60 * 60 * 1000)
    else None
  }

  /** A timeframe such as "15M" in milliseconds.  An unknown unit letter gives
      the 15-minute default; None where Python raises (an empty string, or a
      number `int()` rejects before a known unit). */
  function TimeframeToMs(timeframe: string): (r: Option<int>)
    ensures timeframe == [] ==> r.None?
    ensures timeframe != [] && UnitMs(timeframe[|timeframe| - 1]).None? ==> r == Some(15 * 60 * 1000)
    ensures timeframe != [] && UnitMs(timeframe[|timeframe| - 1]).Some? ==>
              (r.Some? <==> ParseInt(timeframe[..|timeframe| - 1]).Some?)
  {
    if timeframe == [] then None
    else
      var unit := UnitMs(timeframe[|timeframe| - 1]);
      if unit.None? then Some(15 * 60 * 1000)
      else
        var value := ParseInt(timeframe[..|timeframe| - 1]);
        if value.None? then None else Some(value.value * unit.value)
  }

  /** A count written in decimal before a unit letter reads back as that
      many units. */
  lemma TimeframeOfCount(n: int, unit: char)
    requires UnitMs(unit).Some?
    ensures TimeframeToMs(IntToString(n) + [unit]) == Some(n * UnitMs(unit).value)
  {
    var tf := IntToString(n) + [unit];
    assert tf[..|tf| - 1] == IntToString(n);
    ParseIntOfIntToString(n);
  }

  lemma TimeframeFifteenMinutes()
    ensures TimeframeToMs("15M") == Some(900000)
  {
    assert IntToString(15) == "15" by {
      assert NatToString(15) == NatToString(1) + [DigitChar(5)];
    }
    assert "15M" == IntToString(15) + ['M'];
    TimeframeOfCount(15, 'M');
  }

  lemma TimeframeFourHours()
    ensures TimeframeToMs("4H") == Some(14400000)
  {
    assert "4H" == IntToString(4) + ['H'];
    TimeframeOfCount(4, 'H');
  }

  lemma TimeframeOneDay()
    ensures TimeframeToMs("1D") == Some(86400000)
  {
    assert IntToString(1) == "1";
    assert "1D" == IntToString(1) + ['D'];
    assert UnitMs('D') == Some(86400000);
    TimeframeOfCount(1, 'D');
  }

  /** Unit letters are case-sensitive: a lower-case one falls back to the
      15-minute default, whatever the number says. */
  lemma TimeframeLowerCaseUnit()
    ensures TimeframeToMs("4h") == Some(900000)
    ensures TimeframeToMs("") == None
  {
    var tf := "4h";
    assert tf[|tf| - 1] == 'h';
    assert UnitMs('h').None?;
  }

  /** As written, a count of zero or a negative count before a known unit
      letter is accepted: "0M" is a step of 0 ms and "-5M" one of -300000 ms.
      With such a step the time loop's clock never moves past its start, so
      `current <= latest` holds on every pass and the loop does not end. */
  lemma TimeframeStepNotPositive()
    ensures TimeframeToMs("0M") == Some(0)
    ensures TimeframeToMs("-5M") == Some(-300000)
  {
    assert TimeframeToMs("0M") == Some(0) by {
      assert "0M" == IntToString(0) + ['M'];
      TimeframeOfCount(0, 'M');
    }
    assert TimeframeToMs("-5M") == Some(-300000) by {
      assert "-5M" == IntToString(-5) + ['M'];
      TimeframeOfCount(-5, 'M');
    }
  }

  /** The step of the time loop as intended: the timeframe in milliseconds
      when it moves the clock forward, and no step otherwise. */
  function TimeframeStep(timeframe: string): (r: Option<int>)
    ensures r.Some? ==> r.value > 0 && TimeframeToMs(timeframe) == r
    ensures r.None? ==> TimeframeToMs(timeframe).None? || TimeframeToMs(timeframe).value <= 0
  {
    var ms := TimeframeToMs(timeframe);
    if ms.Some? && ms.value > 0 then ms else None
  }

  /** A count before a known unit letter gives a step exactly when it is
      positive. */
  lemma TimeframeStepOfCount(n: int, unit: char)
    requires UnitMs(unit).Some?
    ensures TimeframeStep(IntToString(n) + [unit]).Some? <==> n > 0
    ensures n > 0 ==> TimeframeStep(IntToString(n) + [unit]) == Some(n * UnitMs(unit).value)
  {
    TimeframeOfCount(n, unit);
    StepOfCount(IntToString(n) + [unit], n, UnitMs(unit).value);
  }

  lemma StepOfCount(tf: string, n: int, u: int)
    requires u == 60000 || u == 3600000 || u == 86400000
    requires TimeframeToMs(tf) == Some(n * u)
    ensures TimeframeStep(tf).Some? <==> n > 0
    ensures n > 0 ==> TimeframeStep(tf) == Some(n * u)
  {
    if u == 60000 {
      assert n * u == n * 60000;
    } else if u == 3600000 {
      assert n * u == n * 3600000;
    } else {
      assert n * u == n * 86400000;
    }
  }
}
