/** The high-level trading interface: the affordability rule used by the
    scanner, the order-gating pipeline (`calculate_order`), order execution
    with the daily trade counter, manual close P&L and the daily counters.
    Exchange replies, the balance and the risk manager's sizing and
    validation answers are inputs. */
module ExchangeManager {
  import opened Basics
  import opened Text
  import RiskManager

  /** What `get_symbol_info` gives for a pair.  The two minimums are a
      number or absent. */
  datatype SymbolAnswer =
    | SymbolRaised(message: string)
    | SymbolError(error: string)
    | SymbolInfo(enable: Entry<bool>, minAmount: Option<real>, minTradeSize: Option<real>)

  /** `info.get('enable', True)` as a truth value: an absent key enables the
      pair, a `None` disables it. */
  predicate Enabled(info: SymbolAnswer)
    requires info.SymbolInfo?
  {
    match info.enable
    case Missing => true
    case Null => false
    case Present(b) => b
  }

  /** The smallest order the exchange accepts, in USDT: the larger of the
      minimum amount and the minimum trade size at the entry price. */
  function MinNotional(info: SymbolAnswer, entry: real): (m: real)
    requires info.SymbolInfo?
    ensures m >= info.minAmount.GetOr(0.0)
    ensures m >= info.minTradeSize.GetOr(0.0) * entry
    ensures m == info.minAmount.GetOr(0.0) || m == info.minTradeSize.GetOr(0.0) * entry
  {
    MaxReal(info.minAmount.GetOr(0.0), info.minTradeSize.GetOr(0.0) * entry)
  }

  /** `is_pair_affordable`: the pair's minimum order must fit in a quarter of
      the balance; any error or a disabled pair makes it unaffordable. */
  function IsPairAffordable(info: SymbolAnswer, entry: real, balance: real): (r: bool)
    ensures r <==> info.SymbolInfo? && Enabled(info) && MinNotional(info, entry) <= balance * 0.25
  {
    match info
    case SymbolRaised(_) => false
    case SymbolError(_) => false
    case SymbolInfo(_, _, _) =>
      if !Enabled(info) then false
      else
        var maxPerPosition := balance * 0.25;
        !(MinNotional(info, entry) > maxPerPosition)
  }

  /** A pair affordable with some balance stays affordable with a larger one. */
  lemma AffordableMonotone(info: SymbolAnswer, entry: real, b1: real, b2: real)
    requires b1 <= b2 && IsPairAffordable(info, entry, b1)
    ensures IsPairAffordable(info, entry, b2)
  {
  }

  /** The two symbols of the exchange-manager tests with a 29.04 balance:
      BTC_USDT at 70000 is affordable, a pair with a minimum of 10 is not;
      without an `enable` key a pair is enabled, with `enable: None` it is
      not. */
  lemma AffordabilityExamples()
    ensures IsPairAffordable(SymbolInfo(Present(true), Some(0.01), Some(0.000001)), 70000.0, 29.04)
    ensures !IsPairAffordable(SymbolInfo(Present(true), Some(10.0), Some(1.0)), 10.0, 29.04)
    ensures !IsPairAffordable(SymbolInfo(Present(false), None, None), 100.0, 29.04)
    ensures IsPairAffordable(SymbolInfo(Missing, None, None), 100.0, 29.04)
    ensures !IsPairAffordable(SymbolInfo(Null, None, None), 100.0, 29.04)
  {
    assert MinNotional(SymbolInfo(Present(true), Some(0.01), Some(0.000001)), 70000.0) == 0.07;
  }

  // ---------------------------------------------------------------------
  // calculate_order
  // ---------------------------------------------------------------------

  /** What the risk manager's tiered sizing call gives: a size, a ValueError,
      or any other exception (the call is not defined by the risk manager
      this project models, so every outcome is possible). */
  datatype SizingAnswer =
    | Sized(positionUsdt: real, quantity: real)
    | SizingValueError(message: string)
    | SizingRaised(message: string)

  /** What the risk manager's eight-argument validation call gives. */
  datatype ValidationAnswer =
    | Validated(approved: bool, message: string)
    | ValidationRaised(message: string)

  datatype OrderError =
    | NoAvailableBalance
    | SymbolInfoError(error: string)
    | PairDisabled(pair: string)
    | PositionSizingError(message: string)
    | BelowExchangeMinimum(positionUsdt: real, minNotional: real)
    | RiskRejected(message: string)
    | UnexpectedError(message: string)

  datatype OrderCalc =
    | Approved(positionUsdt: real, quantity: real)
    | Refused(error: OrderError)

  /** `calculate_order`: balance, symbol info, sizing, exchange minimum and
      risk validation, rejected in that order. */
  function CalculateOrder(pair: string, entry: real, balance: real, info: SymbolAnswer,
                          sizing: SizingAnswer, validation: ValidationAnswer): (r: OrderCalc)
    ensures balance <= 0.0 ==> r == Refused(NoAvailableBalance)
    ensures r.Approved? <==>
              balance > 0.0 && info.SymbolInfo? && Enabled(info) && sizing.Sized?
              && sizing.positionUsdt >= MinNotional(info, entry)
              && validation.Validated? && validation.approved
    ensures r.Approved? ==> r.positionUsdt == sizing.positionUsdt && r.quantity == sizing.quantity
  {
    if balance <= 0.0 then Refused(NoAvailableBalance)
    else match info
      case SymbolRaised(msg) => Refused(UnexpectedError(msg))
      case SymbolError(err) => Refused(SymbolInfoError(err))
      case SymbolInfo(_, _, _) =>
        if !Enabled(info) then Refused(PairDisabled(pair))
        else match sizing
          case SizingValueError(msg) => Refused(PositionSizingError(msg))
          case SizingRaised(msg) => Refused(UnexpectedError(msg))
          case Sized(usdt, qty) =>
            var minNotional := MinNotional(info, entry);
            if usdt < minNotional then Refused(BelowExchangeMinimum(usdt, minNotional))
            else match validation
              case ValidationRaised(msg) => Refused(UnexpectedError(msg))
              case Validated(ok, msg) => if ok then Approved(usdt, qty) else Refused(RiskRejected(msg))
  }

  /** An approved order always meets the exchange minimum, on a pair that is
      enabled. */
  lemma ApprovedMeetsMinimum(pair: string, entry: real, balance: real, info: SymbolAnswer,
                             sizing: SizingAnswer, validation: ValidationAnswer)
    requires CalculateOrder(pair, entry, balance, info, sizing, validation).Approved?
    ensures info.SymbolInfo? && Enabled(info)
    ensures CalculateOrder(pair, entry, balance, info, sizing, validation).positionUsdt
            >= MaxReal(info.minAmount.GetOr(0.0), info.minTradeSize.GetOr(0.0) * entry)
  {
  }

  /** The checks run in order: a symbol error hides every later problem, and a
      sizing error hides the exchange minimum and the risk validation. */
  lemma CalculateOrderPrecedence(pair: string, entry: real, balance: real, info: SymbolAnswer,
                                 sizing: SizingAnswer, validation: ValidationAnswer)
    requires balance > 0.0
    ensures info.SymbolError? ==>
              CalculateOrder(pair, entry, balance, info, sizing, validation) == Refused(SymbolInfoError(info.error))
    ensures info.SymbolInfo? && Enabled(info) && sizing.SizingValueError? ==>
              CalculateOrder(pair, entry, balance, info, sizing, validation)
              == Refused(PositionSizingError(sizing.message))
  {
  }

  // ---------------------------------------------------------------------
  // Execution and counters
  // ---------------------------------------------------------------------

  /** What `place_order` gives: an exception, or a reply.  The reply's
      `data.orderId` is `Missing` when the reply has no `data` or `data` has no
      `orderId` key, `Null` when the key holds `None`; only the key's presence
      decides success. */
  datatype PlaceAnswer =
    | PlaceRaised(message: string)
    | PlaceReply(orderId: Entry<string>, error: Option<string>)

  datatype ExecError =
    | CalculationRefused(error: OrderError)
    | OrderFailed(message: string)
    | ExecutionError(message: string)

  /** The result dict of `execute_trade`; `orderId` is `Missing` where the
      dict has no `order_id` key. */
  datatype ExecResult = ExecResult(
    success: bool,
    orderId: Entry<string>,
    error: Option<ExecError>,
    orderSent: bool)

  datatype CloseResult = CloseResult(success: bool, pnl: real, pnlPercent: real)

  /** `check_max_positions`: room for another position while the open count is
      below the configured maximum. */
  function CheckMaxPositions(limits: RiskManager.Limits, openCount: nat): (r: bool)
    ensures r <==> openCount < limits.maxOpenPositions
  {
    !(openCount >= limits.maxOpenPositions)
  }

  lemma CheckMaxPositionsExamples(limits: RiskManager.Limits)
    requires limits.maxOpenPositions == 3
    ensures CheckMaxPositions(limits, 2) && !CheckMaxPositions(limits, 3)
  {
  }

  /** The id of a paper trade: `PAPER-{pair}-{int(time.time())}`. */
  function PaperOrderId(pair: string, now: int): (id: string)
    ensures StartsWith(id, "PAPER-" + pair + "-")
  {
    "PAPER-" + pair + "-" + IntToString(now)
  }

  /** `t in s` for strings: `t` occurs somewhere in `s`. */
  predicate Occurs(t: string, s: string) {
    exists i :: 0 <= i <= |s| - |t| && OccursAt(t, s, i)
  }

  predicate OccursAt(t: string, s: string, i: int)
    requires 0 <= i <= |s| - |t|
  {
    s[i..i + |t|] == t
  }

  /** The paper-trade test checks `'PAPER_' in result['order_id']` for the pair
      BTC_USDT, but the id is built with hyphens, so at no time does the check
      hold: the only `_` of the id is the one inside the pair, and the
      character five places before it is `R`, not `P`. */
  lemma {:induction false} PaperIdFailsUnderscoreCheck(now: int)
    ensures !Occurs("PAPER_", PaperOrderId("BTC_USDT", now))
  {
    var id := PaperOrderId("BTC_USDT", now);
    var head := "PAPER-BTC_USDT-";
    var tail := IntToString(now);
    IntToStringChars(now);
    assert id == head + tail;
    forall i | 0 <= i <= |id| - 6
      ensures !OccursAt("PAPER_", id, i)
    {
      var w := id[i..i + 6];
      if id[i + 5] == '_' {
        assert i + 5 == 9;
        assert w[0] == id[4] == 'R';
        assert w[0] != "PAPER_"[0];
      } else {
        assert w[5] != "PAPER_"[5];
      }
    }
  }

  /** The format the database tests use for paper trade ids
      (`PAPER-BTC_USDT-{timestamp}`), which the id follows at every time. */
  lemma PaperIdHyphenFormat(now: int)
    ensures StartsWith(PaperOrderId("BTC_USDT", now), "PAPER-BTC_USDT-")
    ensures Occurs("PAPER-", PaperOrderId("BTC_USDT", now))
  {
    var id := PaperOrderId("BTC_USDT", now);
    assert id[..15] == "PAPER-BTC_USDT-";
    assert id[0..6] == id[..15][..6] == "PAPER-";
    assert OccursAt("PAPER-", id, 0);
  }

  class Exchange {
    const dryRun: bool
    var tradesToday: int
    var dailyPnl: real

    constructor(dryRun: bool)
      ensures this.dryRun == dryRun && tradesToday == 0 && dailyPnl == 0.0
    {
      this.dryRun := dryRun;
      tradesToday := 0;
      dailyPnl := 0.0;
    }

    /** `execute_trade`: only an approved order is sent, never in paper mode;
        the trade counter moves only after a live order that got an id. */
    method ExecuteTrade(pair: string, entry: real, now: int, balance: real, info: SymbolAnswer,
                        sizing: SizingAnswer, validation: ValidationAnswer, placed: PlaceAnswer)
      returns (r: ExecResult)
      modifies this
      ensures r.orderSent <==> !dryRun && CalculateOrder(pair, entry, balance, info, sizing, validation).Approved?
      ensures r.success <==>
                CalculateOrder(pair, entry, balance, info, sizing, validation).Approved?
                && (dryRun || (placed.PlaceReply? && !placed.orderId.Missing?))
      ensures r.success && dryRun ==> r.orderId == Present(PaperOrderId(pair, now))
      ensures r.success && !dryRun ==> placed.PlaceReply? && r.orderId == placed.orderId
      ensures r.success ==> r.error.None?
      ensures !r.success ==> r.orderId.Missing? && r.error.Some?
      ensures !r.success && !CalculateOrder(pair, entry, balance, info, sizing, validation).Approved? ==>
                r.error == Some(CalculationRefused(CalculateOrder(pair, entry, balance, info, sizing, validation).error))
      ensures !r.success && r.orderSent ==>
                r.error == Some(if placed.PlaceRaised? then ExecutionError(placed.message)
                                else OrderFailed(placed.error.GetOr("Unknown order error")))
      ensures tradesToday == old(tradesToday) + (if r.success && !dryRun then 1 else 0)
      ensures dailyPnl == old(dailyPnl)
    {
      var order := CalculateOrder(pair, entry, balance, info, sizing, validation);
      if !order.Approved? {
        return ExecResult(false, Missing, Some(CalculationRefused(order.error)), false);
      }
      if dryRun {
        return ExecResult(true, Present(PaperOrderId(pair, now)), None, false);
      }
      match placed {
        case PlaceRaised(msg) =>
          r := ExecResult(false, Missing, Some(ExecutionError(msg)), true);
        case PlaceReply(orderId, error) =>
          if !orderId.Missing? {
            r := ExecResult(true, orderId, None, true);
            tradesToday := tradesToday + 1;
          } else {
            r := ExecResult(false, Missing, Some(OrderFailed(error.GetOr("Unknown order error"))), true);
          }
      }
    }

    /** `close_position`: the realised P&L goes into the daily total.  A zero
        entry price raises inside the `try`, which reports failure before the
        daily total is touched. */
    method ClosePosition(exitPrice: real, entryPrice: real, quantity: real) returns (r: CloseResult)
      modifies this
      ensures entryPrice == 0.0 <==> !r.success
      ensures r.success ==> r.pnl == (exitPrice - entryPrice) * quantity
      ensures r.success ==> r.pnlPercent * entryPrice == (exitPrice - entryPrice) * 100.0
      ensures dailyPnl == old(dailyPnl) + (if r.success then r.pnl else 0.0)
      ensures tradesToday == old(tradesToday)
    {
      var pnl := (exitPrice - entryPrice) * quantity;
      if entryPrice == 0.0 {
        return CloseResult(false, 0.0, 0.0);
      }
      var pnlPercent := ((exitPrice - entryPrice) / entryPrice) * 100.0;
      UpdateDailyPnl(pnl);
      r := CloseResult(true, pnl, pnlPercent);
    }

    /** `update_daily_pnl` */
    method UpdateDailyPnl(pnl: real)
      modifies this
      ensures dailyPnl == old(dailyPnl) + pnl
      ensures tradesToday == old(tradesToday)
    {
      dailyPnl := dailyPnl + pnl;
    }

    /** `reset_daily_counters` */
    method ResetDailyCounters()
      modifies this
      ensures tradesToday == 0 && dailyPnl == 0.0
    {
      tradesToday := 0;
      dailyPnl := 0.0;
    }
  }
}
