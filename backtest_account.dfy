/** The account of the backtest engine as a value: cash, open positions,
    closed trades and the counters that `open_position` and
    `close_position` keep, the bookkeeping invariant both preserve, the
    candle check of `check_exits`, and the metrics computed at the end. */
module BacktestAccount {
  import opened Basics
  import opened BacktestModel
  import Ranking

  /** A closed-trade record; `holdHours` is the time held in hours. */
  datatype Trade = Trade(
    pair: string,
    entryPrice: real,
    exitPrice: real,
    quantity: real,
    holdHours: real,
    pnlUsdt: real,
    pnlPct: real,
    reason: ExitReason,
    score: int,
    positionValue: real)

  /** The engine's mutable state.  `dailyTrades` is keyed by the calendar
      date of each exit. */
  datatype Account = Account(
    balance: real,
    positions: seq<Position>,
    closedTrades: seq<Trade>,
    dailyTrades: map<string, seq<Trade>>,
    totalTrades: int,
    winningTrades: int,
    losingTrades: int,
    totalPnl: real,
    peakBalance: real,
    maxDrawdown: real)

  /** The state right after construction. */
  function Fresh(cfg: Config): (a: Account)
    ensures a.balance == cfg.initialBalance && a.peakBalance == cfg.initialBalance
    ensures a.positions == [] && a.closedTrades == [] && a.dailyTrades == map[]
    ensures a.totalTrades == 0 && a.totalPnl == 0.0 && a.maxDrawdown == 0.0
  {
    Account(cfg.initialBalance, [], [], map[], 0, 0, 0, 0.0, cfg.initialBalance, 0.0)
  }

  function PairsOf(ps: seq<Position>): set<string> {
    set k | 0 <= k < |ps| :: ps[k].pair
  }

  predicate DistinctPairs(ps: seq<Position>) {
    forall i, j :: 0 <= i < j < |ps| ==> ps[i].pair != ps[j].pair
  }

  function SumValues(ps: seq<Position>): real {
    if ps == [] then 0.0 else SumValues(ps[..|ps| - 1]) + ps[|ps| - 1].positionValue
  }

  function SumPnl(ts: seq<Trade>): real {
    if ts == [] then 0.0 else SumPnl(ts[..|ts| - 1]) + ts[|ts| - 1].pnlUsdt
  }

  /** Trades with a positive P&L. */
  function Wins(ts: seq<Trade>): (n: nat)
    ensures n <= |ts|
  {
    if ts == [] then 0 else Wins(ts[..|ts| - 1]) + (if ts[|ts| - 1].pnlUsdt > 0.0 then 1 else 0)
  }

  function RemoveAt<T>(s: seq<T>, i: nat): (r: seq<T>)
    requires i < |s|
    ensures |r| == |s| - 1
    ensures forall k :: 0 <= k < i ==> r[k] == s[k]
    ensures forall k :: i <= k < |r| ==> r[k] == s[k + 1]
  {
    s[..i] + s[i + 1..]
  }

  /** The bookkeeping the engine keeps between calls: the position cap, one
      position per pair, sane positions, a positive balance equal to the
      starting balance plus the realised P&L less the cost of what is still
      held, counters that agree with the closed-trade list, and a peak and a
      maximum drawdown within their ranges. */
  predicate Inv(cfg: Config, a: Account) {
    ConfigOk(cfg)
    && |a.positions| <= cfg.maxPositions
    && DistinctPairs(a.positions)
    && (forall k :: 0 <= k < |a.positions| ==> Sane(a.positions[k]))
    && a.balance > 0.0
    && a.balance == cfg.initialBalance + a.totalPnl - SumValues(a.positions)
    && a.totalPnl == SumPnl(a.closedTrades)
    && a.winningTrades == Wins(a.closedTrades)
    && a.totalTrades == |a.closedTrades|
    && a.winningTrades + a.losingTrades == a.totalTrades
    && a.peakBalance >= cfg.initialBalance
    && 0.0 <= a.maxDrawdown <= 1.0
  }

  lemma FreshInv(cfg: Config)
    requires ConfigOk(cfg)
    ensures Inv(cfg, Fresh(cfg))
  {
  }

  // ---------------------------------------------------------------------
  // Sums over sequences
  // ---------------------------------------------------------------------

  lemma {:induction false} SumValuesAppend(ps: seq<Position>, qs: seq<Position>)
    ensures SumValues(ps + qs) == SumValues(ps) + SumValues(qs)
    decreases |qs|
  {
    if qs == [] {
      assert ps + qs == ps;
    } else {
      SumValuesAppend(ps, qs[..|qs| - 1]);
      assert (ps + qs)[..|ps + qs| - 1] == ps + qs[..|qs| - 1];
    }
  }

  lemma {:induction false} SumValuesRemove(ps: seq<Position>, i: nat)
    requires i < |ps|
    ensures SumValues(RemoveAt(ps, i)) == SumValues(ps) - ps[i].positionValue
  {
    var front := ps[..i];
    var back := ps[i + 1..];
    var mid := [ps[i]];
    assert ps == front + (mid + back);
    SumValuesAppend(front, mid + back);
    SumValuesAppend(mid, back);
    assert SumValues(mid) == ps[i].positionValue by {
      assert mid[..0] == [];
    }
    assert RemoveAt(ps, i) == front + back;
    SumValuesAppend(front, back);
  }

  lemma {:induction false} SumValuesPointwise(ps: seq<Position>, qs: seq<Position>)
    requires |ps| == |qs|
    requires forall k :: 0 <= k < |ps| ==> ps[k].positionValue == qs[k].positionValue
    ensures SumValues(ps) == SumValues(qs)
  {
    if ps != [] {
      SumValuesPointwise(ps[..|ps| - 1], qs[..|qs| - 1]);
    }
  }

  lemma TradeAppended(ts: seq<Trade>, t: Trade)
    ensures SumPnl(ts + [t]) == SumPnl(ts) + t.pnlUsdt
    ensures Wins(ts + [t]) == Wins(ts) + (if t.pnlUsdt > 0.0 then 1 else 0)
  {
    assert (ts + [t])[..|ts|] == ts;
  }

  // ---------------------------------------------------------------------
  // open_position
  // ---------------------------------------------------------------------

  /** The position `open_position` creates, or None when it refuses: the
      position cap is reached, the pair is already held, or the buy would
      cost more than the balance. */
  function OpenDecision(cfg: Config, a: Account, pair: string, entryPrice: real, score: int, timestamp: int)
    : (r: Option<Position>)
    requires entryPrice != 0.0
    ensures r.None? <==> |a.positions| >= cfg.maxPositions || pair in PairsOf(a.positions)
                         || Candidate(cfg, a.balance, pair, entryPrice, score, timestamp).positionValue > a.balance
    ensures r.Some? ==> r.value == Candidate(cfg, a.balance, pair, entryPrice, score, timestamp)
  {
    if |a.positions| >= cfg.maxPositions then None
    else if pair in PairsOf(a.positions) then None
    else
      var p := Candidate(cfg, a.balance, pair, entryPrice, score, timestamp);
      if p.positionValue > a.balance then None else Some(p)
  }

  /** The account once a position is opened: its cost leaves the balance. */
  function Opened(a: Account, p: Position): (b: Account)
    ensures b.balance == a.balance - p.positionValue && b.positions == a.positions + [p]
    ensures b.closedTrades == a.closedTrades && b.totalPnl == a.totalPnl
  {
    a.(balance := a.balance - p.positionValue, positions := a.positions + [p])
  }

  /** Opening keeps the bookkeeping: the cap and the one-per-pair rule hold,
      the cash spent is exactly the new position's cost, and the balance
      stays positive. */
  lemma OpenPreservesInv(cfg: Config, a: Account, pair: string, entryPrice: real, score: int, timestamp: int)
    requires Inv(cfg, a) && entryPrice > 0.0
    requires OpenDecision(cfg, a, pair, entryPrice, score, timestamp).Some?
    ensures Inv(cfg, Opened(a, OpenDecision(cfg, a, pair, entryPrice, score, timestamp).value))
  {
    var p := OpenDecision(cfg, a, pair, entryPrice, score, timestamp).value;
    var b := Opened(a, p);
    CandidateSane(cfg, a.balance, pair, entryPrice, score, timestamp);
    assert b.positions[..|b.positions| - 1] == a.positions;
    forall i, j | 0 <= i < j < |b.positions| ensures b.positions[i].pair != b.positions[j].pair {
      if j == |a.positions| {
        assert a.positions[i].pair in PairsOf(a.positions);
      }
    }
  }

  // ---------------------------------------------------------------------
  // close_position
  // ---------------------------------------------------------------------

  /** The trade record of closing `p` at `exitPrice`: the sale is costed like
      any sell, the P&L is the proceeds less what the position cost, and the
      percentage is relative to that cost. */
  function CloseTrade(cfg: Config, p: Position, exitPrice: real, reason: ExitReason, timestamp: int): (t: Trade)
    requires p.positionValue != 0.0
    ensures t.pair == p.pair && t.entryPrice == p.entryPrice && t.quantity == p.quantity
    ensures t.score == p.score && t.positionValue == p.positionValue && t.reason == reason
    ensures t.exitPrice == TradingCosts(exitPrice, p.quantity, Sell, cfg.slippage, cfg.tradingFee).actualPrice
    ensures t.pnlUsdt + p.positionValue == TradingCosts(exitPrice, p.quantity, Sell, cfg.slippage, cfg.tradingFee).total
    ensures t.pnlPct * p.positionValue == t.pnlUsdt * 100.0
    ensures t.holdHours * 3600000.0 == (timestamp - p.entryTimestamp) as real
  {
    var costs := TradingCosts(exitPrice, p.quantity, Sell, cfg.slippage, cfg.tradingFee);
    var pnl := costs.total - p.positionValue;
    var durationSeconds := (timestamp - p.entryTimestamp) as real / 1000.0;
    Trade(p.pair, p.entryPrice, costs.actualPrice, p.quantity, durationSeconds / 3600.0,
          pnl, (pnl / p.positionValue) * 100.0, reason, p.score, p.positionValue)
  }

  function DayTrades(daily: map<string, seq<Trade>>, day: string): seq<Trade> {
    if day in daily then daily[day] else []
  }

  /** The account once position `i` is closed: the proceeds join the
      balance, the trade is recorded (in the list, the counters and the
      exit day's list), the position leaves, a new high raises the peak and
      otherwise the drawdown from the peak may raise the maximum drawdown. */
  function ClosedAt(cfg: Config, isoDate: int -> string, a: Account, i: nat, exitPrice: real,
                    reason: ExitReason, timestamp: int): (b: Account)
    requires i < |a.positions| && a.positions[i].positionValue != 0.0 && a.peakBalance != 0.0
    ensures b.balance == a.balance + a.positions[i].positionValue
                         + CloseTrade(cfg, a.positions[i], exitPrice, reason, timestamp).pnlUsdt
    ensures b.positions == RemoveAt(a.positions, i)
    ensures b.closedTrades == a.closedTrades + [CloseTrade(cfg, a.positions[i], exitPrice, reason, timestamp)]
    ensures b.dailyTrades == a.dailyTrades[isoDate(timestamp) := DayTrades(a.dailyTrades, isoDate(timestamp))
                                             + [CloseTrade(cfg, a.positions[i], exitPrice, reason, timestamp)]]
    ensures b.peakBalance == MaxReal(a.peakBalance, b.balance)
    ensures b.maxDrawdown >= a.maxDrawdown
    ensures b.balance <= a.peakBalance ==>
              b.maxDrawdown == MaxReal(a.maxDrawdown, (a.peakBalance - b.balance) / a.peakBalance)
  {
    var p := a.positions[i];
    Recorded(a, i, CloseTrade(cfg, p, exitPrice, reason, timestamp),
             TradingCosts(exitPrice, p.quantity, Sell, cfg.slippage, cfg.tradingFee).total, isoDate(timestamp))
  }

  /** The bookkeeping of a close, given the trade, the sale proceeds and
      the exit day. */
  function Recorded(a: Account, i: nat, trade: Trade, proceeds: real, day: string): Account
    requires i < |a.positions| && a.peakBalance != 0.0
  {
    var balance := a.balance + proceeds;
    var newHigh := balance > a.peakBalance;
    Account(
      balance,
      RemoveAt(a.positions, i),
      a.closedTrades + [trade],
      a.dailyTrades[day := DayTrades(a.dailyTrades, day) + [trade]],
      a.totalTrades + 1,
      a.winningTrades + (if trade.pnlUsdt > 0.0 then 1 else 0),
      a.losingTrades + (if trade.pnlUsdt > 0.0 then 0 else 1),
      a.totalPnl + trade.pnlUsdt,
      if newHigh then balance else a.peakBalance,
      if newHigh then a.maxDrawdown else MaxReal(a.maxDrawdown, (a.peakBalance - balance) / a.peakBalance))
  }

  lemma DrawdownInUnit(peak: real, balance: real)
    requires 0.0 < balance <= peak
    ensures 0.0 <= (peak - balance) / peak < 1.0
  {
  }

  /** Closing at a positive price keeps the bookkeeping: total trades stay
      the sum of wins and losses (a zero P&L counts as a loss), the cash
      identity holds and the maximum drawdown stays in [0, 1]. */
  lemma ClosePreservesInv(cfg: Config, isoDate: int -> string, a: Account, i: nat, exitPrice: real,
                          reason: ExitReason, timestamp: int)
    requires Inv(cfg, a) && i < |a.positions| && exitPrice > 0.0
    ensures a.positions[i].positionValue != 0.0 && a.peakBalance != 0.0
    ensures Inv(cfg, ClosedAt(cfg, isoDate, a, i, exitPrice, reason, timestamp))
  {
    var p := a.positions[i];
    var b := ClosedAt(cfg, isoDate, a, i, exitPrice, reason, timestamp);
    var t := CloseTrade(cfg, p, exitPrice, reason, timestamp);
    assert Sane(p);
    SaleProceedsPositive(exitPrice, p.quantity, cfg.slippage, cfg.tradingFee);
    SumValuesRemove(a.positions, i);
    TradeAppended(a.closedTrades, t);
    if b.balance <= a.peakBalance {
      DrawdownInUnit(a.peakBalance, b.balance);
    }
    RemoveAtKeepsPositionsOk(a.positions, i);
  }

  /** Removing a position keeps the others sane and their pairs distinct. */
  lemma RemoveAtKeepsPositionsOk(ps: seq<Position>, i: nat)
    requires i < |ps| && DistinctPairs(ps) && forall k :: 0 <= k < |ps| ==> Sane(ps[k])
    ensures DistinctPairs(RemoveAt(ps, i))
    ensures forall k :: 0 <= k < |RemoveAt(ps, i)| ==> Sane(RemoveAt(ps, i)[k])
  {
    var r := RemoveAt(ps, i);
    forall k | 0 <= k < |r| ensures Sane(r[k]) {
      if k >= i {
        assert r[k] == ps[k + 1];
      }
    }
    forall x, y | 0 <= x < y < |r| ensures r[x].pair != r[y].pair {
      var x' := if x < i then x else x + 1;
      var y' := if y < i then y else y + 1;
      assert r[x] == ps[x'] && r[y] == ps[y'];
    }
  }

  /** Closing removes a position and adds no pair. */
  lemma ClosedAtPairs(cfg: Config, isoDate: int -> string, a: Account, i: nat, exitPrice: real,
                      reason: ExitReason, timestamp: int)
    requires i < |a.positions| && a.positions[i].positionValue != 0.0 && a.peakBalance != 0.0
    ensures PairsOf(ClosedAt(cfg, isoDate, a, i, exitPrice, reason, timestamp).positions) <= PairsOf(a.positions)
  {
    var b := ClosedAt(cfg, isoDate, a, i, exitPrice, reason, timestamp);
    forall pair | pair in PairsOf(b.positions) ensures pair in PairsOf(a.positions) {
      var k :| 0 <= k < |b.positions| && b.positions[k].pair == pair;
      if k < i {
        assert a.positions[k].pair == pair;
      } else {
        assert a.positions[k + 1].pair == pair;
      }
    }
  }

  // ---------------------------------------------------------------------
  // check_exits
  // ---------------------------------------------------------------------

  /** Every position's trailing stop after the candle's close. */
  function Ratcheted(ps: seq<Position>, current: real): (r: seq<Position>)
    ensures |r| == |ps| && forall k :: 0 <= k < |ps| ==> r[k] == Ratchet(ps[k], current)
  {
    seq(|ps|, k requires 0 <= k < |ps| => Ratchet(ps[k], current))
  }

  lemma RatchetedKeepsInv(cfg: Config, a: Account, current: real)
    requires Inv(cfg, a)
    ensures Inv(cfg, a.(positions := Ratcheted(a.positions, current)))
    ensures PairsOf(Ratcheted(a.positions, current)) == PairsOf(a.positions)
  {
    var ps := Ratcheted(a.positions, current);
    forall k | 0 <= k < |ps| ensures Sane(ps[k]) {
      RatchetMonotone(a.positions[k], current);
    }
    SumValuesPointwise(a.positions, ps);
    assert forall k :: 0 <= k < |ps| ==> ps[k].pair == a.positions[k].pair;
  }

  /** A position to close, with the price and the reason. */
  datatype ExitOrder = ExitOrder(pair: string, price: real, reason: ExitReason)

  /** The exits the candle triggers, in the positions' order. */
  function ExitsOf(ps: seq<Position>, candle: Candle): (r: seq<ExitOrder>)
    ensures |r| <= |ps|
    ensures forall k :: 0 <= k < |r| ==> r[k].pair in PairsOf(ps)
    ensures (forall k :: 0 <= k < |ps| ==> Sane(ps[k])) ==> forall k :: 0 <= k < |r| ==> r[k].price > 0.0
  {
    if ps == [] then []
    else
      var p := ps[|ps| - 1];
      var e := ExitFor(p, candle);
      assert PairsOf(ps[..|ps| - 1]) <= PairsOf(ps);
      ExitsOf(ps[..|ps| - 1], candle) + (if e.Some? then [ExitOrder(p.pair, e.value.price, e.value.reason)] else [])
  }

  /** Index of the position holding `pair`. */
  function PairIndex(ps: seq<Position>, pair: string): (r: Option<nat>)
    ensures r.Some? ==> r.value < |ps| && ps[r.value].pair == pair
    ensures r.None? ==> pair !in PairsOf(ps)
  {
    if ps == [] then None
    else if ps[|ps| - 1].pair == pair then Some(|ps| - 1)
    else
      var r := PairIndex(ps[..|ps| - 1], pair);
      assert PairsOf(ps) == PairsOf(ps[..|ps| - 1]) + {ps[|ps| - 1].pair};
      r
  }

  /** Closing the position of one exit order (Python's `list.remove` of that
      position); a pair no longer held leaves the account as it is. */
  function CloseOne(cfg: Config, isoDate: int -> string, a: Account, e: ExitOrder, timestamp: int): (r: Account)
    requires Inv(cfg, a) && e.price > 0.0
    ensures Inv(cfg, r)
    ensures PairsOf(r.positions) <= PairsOf(a.positions)
    ensures |a.closedTrades| <= |r.closedTrades| && r.closedTrades[..|a.closedTrades|] == a.closedTrades
  {
    var i := PairIndex(a.positions, e.pair);
    if i.None? then a
    else
      ClosePreservesInv(cfg, isoDate, a, i.value, e.price, e.reason, timestamp);
      ClosedAtPairs(cfg, isoDate, a, i.value, e.price, e.reason, timestamp);
      var r := ClosedAt(cfg, isoDate, a, i.value, e.price, e.reason, timestamp);
      assert r.closedTrades[..|a.closedTrades|] == a.closedTrades;
      r
  }

  /** Closing the exit orders one after the other. */
  function ClosePairs(cfg: Config, isoDate: int -> string, a: Account, exits: seq<ExitOrder>, timestamp: int)
    : (r: Account)
    requires Inv(cfg, a) && forall k :: 0 <= k < |exits| ==> exits[k].price > 0.0
    ensures Inv(cfg, r)
    ensures PairsOf(r.positions) <= PairsOf(a.positions)
    ensures |a.closedTrades| <= |r.closedTrades| && r.closedTrades[..|a.closedTrades|] == a.closedTrades
  {
    if exits == [] then a
    else
      var b := ClosePairs(cfg, isoDate, a, exits[..|exits| - 1], timestamp);
      var r := CloseOne(cfg, isoDate, b, exits[|exits| - 1], timestamp);
      assert r.closedTrades[..|a.closedTrades|] == b.closedTrades[..|a.closedTrades|];
      r
  }

  /** Closing one more exit order extends the fold by one step. */
  lemma ClosePairsStep(cfg: Config, isoDate: int -> string, a: Account, exits: seq<ExitOrder>, j: nat, timestamp: int)
    requires Inv(cfg, a) && j < |exits| && forall k :: 0 <= k < |exits| ==> exits[k].price > 0.0
    ensures ClosePairs(cfg, isoDate, a, exits[..j + 1], timestamp)
            == CloseOne(cfg, isoDate, ClosePairs(cfg, isoDate, a, exits[..j], timestamp), exits[j], timestamp)
  {
    assert exits[..j + 1][..j] == exits[..j];
  }

  /** `check_exits` on one candle: every open position's trailing stop
      follows the candle's close, then every position whose exit the candle
      triggers is closed at the candle's time. */
  function AfterExits(cfg: Config, isoDate: int -> string, a: Account, candle: Candle): (r: Account)
    requires Inv(cfg, a)
    ensures Inv(cfg, r)
    ensures PairsOf(r.positions) <= PairsOf(a.positions)
    ensures |a.closedTrades| <= |r.closedTrades| && r.closedTrades[..|a.closedTrades|] == a.closedTrades
  {
    var ps := Ratcheted(a.positions, candle.close);
    RatchetedKeepsInv(cfg, a, candle.close);
    ClosePairs(cfg, isoDate, a.(positions := ps), ExitsOf(ps, candle), candle.timestamp)
  }

  // ---------------------------------------------------------------------
  // _calculate_metrics
  // ---------------------------------------------------------------------

  datatype Metrics = Metrics(
    initialBalance: real,
    finalBalance: real,
    totalPnl: real,
    roiPercent: real,
    totalTrades: int,
    winningTrades: int,
    losingTrades: int,
    winRate: real,
    avgPnl: real,
    avgWin: real,
    avgLoss: real,
    profitFactor: real,
    maxDrawdownPct: real,
    avgHoldHours: real,
    bestTrade: Option<Trade>,
    worstTrade: Option<Trade>,
    dailyTrades: map<string, seq<Trade>>,
    allTrades: seq<Trade>,
    scansPerformed: int)

  function PnlOf(t: Trade): real {
    t.pnlUsdt
  }

  /** Sum of the positive P&Ls. */
  function SumWins(ts: seq<Trade>): (r: real)
    ensures r >= 0.0
    ensures Wins(ts) == 0 ==> r == 0.0
  {
    if ts == [] then 0.0
    else SumWins(ts[..|ts| - 1]) + (if ts[|ts| - 1].pnlUsdt > 0.0 then ts[|ts| - 1].pnlUsdt else 0.0)
  }

  /** Trades with a negative P&L. */
  function LossCount(ts: seq<Trade>): (n: nat)
    ensures n <= |ts|
  {
    if ts == [] then 0 else LossCount(ts[..|ts| - 1]) + (if ts[|ts| - 1].pnlUsdt < 0.0 then 1 else 0)
  }

  /** Sum of the negative P&Ls. */
  function SumLosses(ts: seq<Trade>): (r: real)
    ensures r <= 0.0
    ensures LossCount(ts) == 0 ==> r == 0.0
  {
    if ts == [] then 0.0
    else SumLosses(ts[..|ts| - 1]) + (if ts[|ts| - 1].pnlUsdt < 0.0 then ts[|ts| - 1].pnlUsdt else 0.0)
  }

  function SumHold(ts: seq<Trade>): real {
    if ts == [] then 0.0 else SumHold(ts[..|ts| - 1]) + ts[|ts| - 1].holdHours
  }

  /** `(gain / base) * 100` */
  function PercentOfBase(gain: real, base: real): (r: real)
    requires base != 0.0
    ensures r * base == gain * 100.0
  {
    (gain / base) * 100.0
  }

  /** `x / n if n > 0 else 0` */
  function AverageOrZero(x: real, n: nat): (r: real)
    ensures n == 0 ==> r == 0.0
    ensures n > 0 ==> r == PerItem(x, n)
    ensures x >= 0.0 ==> r >= 0.0
    ensures x <= 0.0 ==> r <= 0.0
  {
    if n > 0 then PerItem(x, n) else 0.0
  }

  /** Total wins over the absolute total losses, zero without losses. */
  function ProfitFactor(ts: seq<Trade>): (r: real)
    ensures r >= 0.0
    ensures SumLosses(ts) < 0.0 ==> r * -SumLosses(ts) == SumWins(ts)
    ensures SumLosses(ts) == 0.0 ==> r == 0.0
  {
    var totalLosses := AbsReal(SumLosses(ts));
    if totalLosses > 0.0 then SumWins(ts) / totalLosses else 0.0
  }

  /** `max(ts, key=pnl)`: the first trade with the highest P&L. */
  function BestTrade(ts: seq<Trade>): (r: Option<Trade>)
    ensures r.Some? <==> ts != []
    ensures r.Some? ==> r.value in ts && forall k :: 0 <= k < |ts| ==> ts[k].pnlUsdt <= r.value.pnlUsdt
  {
    if ts == [] then None else Some(ts[Ranking.FirstArgMax(ts, PnlOf)])
  }

  /** `min(ts, key=pnl)`: the first trade with the lowest P&L. */
  function WorstTrade(ts: seq<Trade>): (r: Option<Trade>)
    ensures r.Some? <==> ts != []
    ensures r.Some? ==> r.value in ts && forall k :: 0 <= k < |ts| ==> r.value.pnlUsdt <= ts[k].pnlUsdt
  {
    if ts == [] then None else Some(ts[Ranking.FirstArgMin(ts, PnlOf)])
  }

  /** `winning / total * 100 if total > 0 else 0` */
  function WinRate(wins: nat, total: nat): (r: real)
    requires wins <= total
    ensures 0.0 <= r <= 100.0
    ensures total == 0 ==> r == 0.0
    ensures total > 0 ==> r == Percent(wins, total)
  {
    if total > 0 then Percent(wins, total) else 0.0
  }

  /** The metrics: rates and averages guarded against empty counts, the
      return on the starting balance, and the first best and first worst
      trade by P&L. */
  function CalculateMetrics(cfg: Config, a: Account, scans: int): (m: Metrics)
    requires Inv(cfg, a)
    ensures m.totalTrades == |a.closedTrades| == m.winningTrades + m.losingTrades
    ensures m.finalBalance == a.balance && m.totalPnl == SumPnl(a.closedTrades) && m.allTrades == a.closedTrades
    ensures 0.0 <= m.winRate <= 100.0 && 0.0 <= m.maxDrawdownPct <= 100.0
    ensures m.winRate == WinRate(Wins(a.closedTrades), |a.closedTrades|)
    ensures m.avgPnl == AverageOrZero(SumPnl(a.closedTrades), |a.closedTrades|)
    ensures m.avgHoldHours == AverageOrZero(SumHold(a.closedTrades), |a.closedTrades|)
    ensures m.avgWin == AverageOrZero(SumWins(a.closedTrades), Wins(a.closedTrades))
    ensures m.avgLoss == AverageOrZero(SumLosses(a.closedTrades), LossCount(a.closedTrades))
    ensures m.profitFactor == ProfitFactor(a.closedTrades)
    ensures m.avgWin >= 0.0 && m.avgLoss <= 0.0 && m.profitFactor >= 0.0
    ensures m.bestTrade == BestTrade(a.closedTrades) && m.worstTrade == WorstTrade(a.closedTrades)
    ensures m.scansPerformed == scans
  {
    var ts := a.closedTrades;
    var n := |ts|;
    Metrics(cfg.initialBalance, a.balance, a.totalPnl,
            PercentOfBase(a.balance - cfg.initialBalance, cfg.initialBalance),
            a.totalTrades, a.winningTrades, a.losingTrades,
            WinRate(a.winningTrades, n),
            AverageOrZero(a.totalPnl, n),
            AverageOrZero(SumWins(ts), Wins(ts)),
            AverageOrZero(SumLosses(ts), LossCount(ts)),
            ProfitFactor(ts),
            a.maxDrawdown * 100.0,
            AverageOrZero(SumHold(ts), n),
            BestTrade(ts), WorstTrade(ts), a.dailyTrades, ts, scans)
  }

  /** Every closed trade is a win, a loss or breaks even. */
  lemma {:induction false} OutcomesPartition(ts: seq<Trade>)
    ensures Wins(ts) + LossCount(ts) + |set k | 0 <= k < |ts| && ts[k].pnlUsdt == 0.0| == |ts|
  {
    if ts != [] {
      var init := ts[..|ts| - 1];
      OutcomesPartition(init);
      var zeros := set k | 0 <= k < |ts| && ts[k].pnlUsdt == 0.0;
      var initZeros := set k | 0 <= k < |init| && init[k].pnlUsdt == 0.0;
      if ts[|ts| - 1].pnlUsdt == 0.0 {
        assert zeros == initZeros + {|ts| - 1};
      } else {
        assert zeros == initZeros;
      }
    }
  }

  /** A trade that breaks even counts among the losing trades but not in the
      average loss, so the average loss is over fewer trades than the losing
      count whenever one broke even. */
  lemma BreakEvenIsALossButNotAveraged(cfg: Config, a: Account)
    requires Inv(cfg, a)
    ensures a.losingTrades == LossCount(a.closedTrades)
                              + |set k | 0 <= k < |a.closedTrades| && a.closedTrades[k].pnlUsdt == 0.0|
  {
    OutcomesPartition(a.closedTrades);
  }

  /** The return is the change of the balance as a percentage of the
      starting balance. */
  lemma RoiOnStartingBalance(cfg: Config, a: Account, scans: int)
    requires Inv(cfg, a)
    ensures CalculateMetrics(cfg, a, scans).roiPercent == PercentOfBase(a.balance - cfg.initialBalance, cfg.initialBalance)
  {
  }

  /** Once no position is open, the return is the realised P&L over the
      starting balance. */
  lemma RoiIsRealisedPnl(cfg: Config, a: Account, scans: int)
    requires Inv(cfg, a) && a.positions == []
    ensures CalculateMetrics(cfg, a, scans).roiPercent == PercentOfBase(a.totalPnl, cfg.initialBalance)
  {
    RoiOnStartingBalance(cfg, a, scans);
    assert a.balance - cfg.initialBalance == a.totalPnl;
  }
}
