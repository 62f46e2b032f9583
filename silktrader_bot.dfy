/** The autonomous trading bot: a cycle scans every USDT symbol with the
    setup score, ranks the survivors, asks the language model about each of
    the best, and executes the approved ones behind the daily-limit gate and
    the risk validation.  The exchange, the model, the clock and the
    positions file are inputs; logging and console output are left out.

    The bot never updates its own `daily_pnl`, so within a session the loss
    limit of its daily gate always sees the starting value. */
module TraderBot {
  import opened Basics
  import opened Text
  import opened Indicators
  import RiskManager
  import LlmDecision
  import Ranking

  // ---------------------------------------------------------------------
  // scan_and_analyze
  // ---------------------------------------------------------------------

  /** An entry of the scan's opportunity list. */
  datatype Candidate = Candidate(pair: string, score: int, indicators: Indicators)

  function ScoreOf(c: Candidate): int {
    c.score
  }

  /** What the scan makes of one symbol: an exception (fetch, indicators or
      a zero price in the score), too short a history, too low a score, or a
      candidate. */
  datatype SymbolOutcome = ScanFailed | TooFewCandles | BelowMinScore | Kept(candidate: Candidate)

  /** One symbol of the scan loop. */
  function Examine(minScore: int, pair: string, sample: KlineSample): (o: SymbolOutcome)
    ensures o.Kept? <==>
              sample.Fetched? && sample.candles >= 50 && sample.indicators.Some?
              && ScoreSetup(sample.indicators.value).Some?
              && ScoreSetup(sample.indicators.value).value >= minScore
    ensures o.Kept? ==>
              o.candidate.pair == pair && o.candidate.indicators == sample.indicators.value
              && ScoreSetup(o.candidate.indicators) == Some(o.candidate.score)
              && o.candidate.indicators.price != 0.0 && 0 <= o.candidate.score <= 7
    ensures o.TooFewCandles? <==> sample.Fetched? && sample.candles < 50
    ensures o.ScanFailed? <==>
              sample.FetchFailed?
              || (sample.candles >= 50
                  && (sample.indicators.None? || ScoreSetup(sample.indicators.value).None?))
  {
    match sample
    case FetchFailed => ScanFailed
    case Fetched(candles, ind) =>
      if candles < 50 then TooFewCandles
      else if ind.None? then ScanFailed
      else match ScoreSetup(ind.value)
        case None => ScanFailed
        case Some(score) =>
          if score >= minScore then Kept(Candidate(pair, score, ind.value)) else BelowMinScore
  }

  /** The opportunity list of the scan, in symbol order. */
  function KeptOf(minScore: int, klines: string -> KlineSample, symbols: seq<string>): (r: seq<Candidate>)
    ensures |r| <= |symbols|
  {
    if symbols == [] then []
    else
      var n := |symbols| - 1;
      var o := Examine(minScore, symbols[n], klines(symbols[n]));
      KeptOf(minScore, klines, symbols[..n]) + (if o.Kept? then [o.candidate] else [])
  }

  /** The number of symbols whose scan raised. */
  function ErrorsOf(minScore: int, klines: string -> KlineSample, symbols: seq<string>): (r: nat)
    ensures r <= |symbols|
  {
    if symbols == [] then 0
    else
      var n := |symbols| - 1;
      ErrorsOf(minScore, klines, symbols[..n])
      + (if Examine(minScore, symbols[n], klines(symbols[n])).ScanFailed? then 1 else 0)
  }

  /** What `scan_and_analyze` returns: the list ranked by score and cut to
      `top_pairs_limit` entries. */
  function ScanTop(minScore: int, topN: int, klines: string -> KlineSample, symbols: seq<string>): seq<Candidate> {
    Ranking.PyPrefix(Ranking.SortDesc(KeptOf(minScore, klines, symbols), ScoreOf), topN)
  }

  /** Every candidate comes from a scanned symbol with at least 50 candles,
      meets the minimum score and has a usable price. */
  lemma {:induction false} KeptAreQualified(minScore: int, klines: string -> KlineSample, symbols: seq<string>)
    ensures forall c :: c in KeptOf(minScore, klines, symbols) ==>
              c.pair in symbols && c.score >= minScore && c.indicators.price != 0.0
              && klines(c.pair).Fetched? && klines(c.pair).candles >= 50
              && klines(c.pair).indicators == Some(c.indicators)
  {
    if symbols != [] {
      var n := |symbols| - 1;
      KeptAreQualified(minScore, klines, symbols[..n]);
    }
  }

  /** Conversely, every symbol that qualifies is in the list. */
  lemma {:induction false} QualifiedAreKept(minScore: int, klines: string -> KlineSample, symbols: seq<string>, i: nat)
    requires i < |symbols|
    requires Examine(minScore, symbols[i], klines(symbols[i])).Kept?
    ensures Examine(minScore, symbols[i], klines(symbols[i])).candidate in KeptOf(minScore, klines, symbols)
  {
    var n := |symbols| - 1;
    if i < n {
      assert symbols[..n][i] == symbols[i];
      QualifiedAreKept(minScore, klines, symbols[..n], i);
    }
  }

  /** The scan's result is ordered by score (ties in symbol order), holds at
      most `top_n` entries taken from the candidates, and all of them when
      there are no more than `top_n`. */
  lemma ScanTopProperties(minScore: int, topN: int, klines: string -> KlineSample, symbols: seq<string>)
    ensures Ranking.SortedDesc(ScanTop(minScore, topN, klines, symbols), ScoreOf)
    ensures topN >= 0 ==> |ScanTop(minScore, topN, klines, symbols)| <= topN
    ensures multiset(ScanTop(minScore, topN, klines, symbols)) <= multiset(KeptOf(minScore, klines, symbols))
    ensures topN >= |KeptOf(minScore, klines, symbols)| ==>
              multiset(ScanTop(minScore, topN, klines, symbols)) == multiset(KeptOf(minScore, klines, symbols))
  {
    var all := KeptOf(minScore, klines, symbols);
    var sorted := Ranking.SortDesc(all, ScoreOf);
    Ranking.SortDescCorrect(all, ScoreOf);
    var r := ScanTop(minScore, topN, klines, symbols);
    assert sorted == r + sorted[|r|..];
  }

  /** Scanning one more symbol extends both the list and the error count. */
  lemma ScanStep(minScore: int, klines: string -> KlineSample, symbols: seq<string>, i: nat)
    requires i < |symbols|
    ensures var o := Examine(minScore, symbols[i], klines(symbols[i]));
            KeptOf(minScore, klines, symbols[..i + 1])
            == KeptOf(minScore, klines, symbols[..i]) + (if o.Kept? then [o.candidate] else [])
            && ErrorsOf(minScore, klines, symbols[..i + 1])
               == ErrorsOf(minScore, klines, symbols[..i]) + (if o.ScanFailed? then 1 else 0)
  {
    assert symbols[..i + 1][..i] == symbols[..i];
  }

  /** The body of the scan loop for one symbol. */
  method ScanSymbol(minScore: int, pair: string, sample: KlineSample, opportunities: seq<Candidate>, errors: nat)
    returns (opportunities': seq<Candidate>, errors': nat)
    ensures var o := Examine(minScore, pair, sample);
            opportunities' == opportunities + (if o.Kept? then [o.candidate] else [])
            && errors' == errors + (if o.ScanFailed? then 1 else 0)
  {
    opportunities', errors' := opportunities, errors;
    if sample.FetchFailed? {
      errors' := errors + 1;
      return;
    }
    if sample.candles < 50 {
      return;
    }
    if sample.indicators.None? {
      errors' := errors + 1;
      return;
    }
    var indicators := sample.indicators.value;
    var score := ScoreSetup(indicators);
    if score.None? {
      errors' := errors + 1;
      return;
    }
    if score.value >= minScore {
      opportunities' := opportunities + [Candidate(pair, score.value, indicators)];
    }
  }

  /** `scan_and_analyze`, given the symbol list and each symbol's candles. */
  method ScanAndAnalyze(minScore: int, topN: int, klines: string -> KlineSample, symbols: seq<string>)
    returns (top: seq<Candidate>, errors: nat)
    ensures top == ScanTop(minScore, topN, klines, symbols)
    ensures errors == ErrorsOf(minScore, klines, symbols)
  {
    var opportunities: seq<Candidate> := [];
    errors := 0;
    var i := 0;
    while i < |symbols|
      invariant 0 <= i <= |symbols|
      invariant opportunities == KeptOf(minScore, klines, symbols[..i])
      invariant errors == ErrorsOf(minScore, klines, symbols[..i])
    {
      ScanStep(minScore, klines, symbols, i);
      opportunities, errors := ScanSymbol(minScore, symbols[i], klines(symbols[i]), opportunities, errors);
      i := i + 1;
    }
    assert symbols[..i] == symbols;
    top := Ranking.PyPrefix(Ranking.SortDesc(opportunities, ScoreOf), topN);
  }

  // ---------------------------------------------------------------------
  // evaluate_opportunity
  // ---------------------------------------------------------------------

  /** `evaluate_opportunity`: trade exactly a BUY with confidence 7 or more;
      an exception from the model engine gives (False, None). */
  function EvaluateOpportunity(c: Candidate, reply: LlmDecision.Reply): (r: (bool, Option<LlmDecision.Decision>))
    ensures r.1.None? <==> c.indicators.price == 0.0
    ensures r.0 <==> r.1.Some? && r.1.value.action == LlmDecision.Buy && r.1.value.confidence >= 7
    ensures r.1.Some? ==> r.1 == LlmDecision.AnalyzeOpportunity(c.indicators, reply)
  {
    var decision := LlmDecision.AnalyzeOpportunity(c.indicators, reply);
    if decision.None? then (false, None)
    else if decision.value.action == LlmDecision.Buy && decision.value.confidence >= 7 then (true, decision)
    else (false, decision)
  }

  /** A failed call to the model never leads to a trade. */
  lemma FailedCallNeverTrades(c: Candidate, message: string)
    ensures !EvaluateOpportunity(c, LlmDecision.CallFailed(message)).0
  {
  }

  /** For a reply that arrived, the bot trades exactly when the parsed
      decision is a BUY with confidence at least 7. */
  lemma ParsedReplyTradeRule(c: Candidate, text: string)
    requires c.indicators.price != 0.0
    ensures EvaluateOpportunity(c, LlmDecision.Replied(text)).0 <==>
              LlmDecision.ParsedDecision(text).action == LlmDecision.Buy
              && LlmDecision.ParsedDecision(text).confidence >= 7
  {
  }

  // ---------------------------------------------------------------------
  // execute_trade
  // ---------------------------------------------------------------------

  /** What the account-balance call gives: an exception, or the free USDT
      balance if the list has a USDT entry whose `free` converts. */
  datatype BalanceAnswer = BalanceRaised | Balances(usdtFree: Option<real>)

  /** The balance the sizing uses: a mock 1000 in paper mode, otherwise the
      free USDT balance with 1000 as fallback. */
  function AccountBalance(dryRun: bool, answer: BalanceAnswer): (b: real)
    ensures dryRun ==> b == 1000.0
    ensures !dryRun && answer.Balances? && answer.usdtFree.Some? ==> b == answer.usdtFree.value
    ensures b == 1000.0 || (answer.Balances? && answer.usdtFree == Some(b))
  {
    if dryRun then 1000.0
    else match answer
      case BalanceRaised => 1000.0
      case Balances(free) => free.GetOr(1000.0)
  }

  /** Levels and size of a BUY at the indicators' price. */
  datatype TradePlan = TradePlan(stopLoss: real, takeProfit: real, quantity: real, positionUsdt: real)

  /** The ATR stop and target, then the risk-based size.  The sizing divides
      by the price and by the stop distance, so a zero price or ATR raises. */
  function PlanTrade(limits: RiskManager.Limits, ind: Indicators, balance: real): (p: TradePlan)
    requires ind.price != 0.0 && ind.atr != 0.0
    ensures p.stopLoss == ind.price - 2.0 * ind.atr && p.takeProfit == ind.price + 3.0 * ind.atr
    ensures p.positionUsdt == p.quantity * ind.price
    ensures p.positionUsdt <= limits.maxPositionSizeUsdt
    ensures ind.price > 0.0 ==> p.quantity * AbsReal(2.0 * ind.atr) <= balance * 0.02
  {
    var entry := ind.price;
    var stop := RiskManager.StopLoss(entry, ind.atr, "BUY");
    var target := RiskManager.TakeProfit(entry, ind.atr, "BUY");
    var sizing := RiskManager.PositionSize(limits, entry, stop, balance);
    if entry > 0.0 then
      RiskManager.PositionSizeRiskBounded(limits, entry, stop, balance);
      TradePlan(stop, target, sizing.quantity, sizing.quantity * entry)
    else
      TradePlan(stop, target, sizing.quantity, sizing.quantity * entry)
  }

  /** What `place_order` gives: an exception, or a reply.  `error` is Some
      exactly when the reply has an `error` key, whatever it holds (a `None`
      there included), since only the key's presence is tested. */
  datatype OrderAnswer = OrderRaised(message: string) | OrderReply(orderId: Option<string>, error: Option<string>)

  predicate Filled(order: OrderAnswer) {
    order.OrderReply? && order.error.None?
  }

  /** How a trade attempt ends. */
  datatype TradeOutcome =
    | Blocked(check: RiskManager.DailyCheck)
    | Rejected(validation: RiskManager.Validation)
    | OrderNotFilled
    | Executed(plan: TradePlan)

  /** The decision part of `execute_trade`: the daily gate first, before any
      sizing; then the validation of the planned size against the open
      positions; then, live only, the order. */
  function ExecuteOutcome(limits: RiskManager.Limits, dryRun: bool, tradesToday: int, dailyPnl: real,
                          openCount: nat, ind: Indicators, balance: BalanceAnswer, order: OrderAnswer): (o: TradeOutcome)
    requires RiskManager.CanTrade(RiskManager.CheckDailyLimits(limits, tradesToday, dailyPnl)) ==>
               ind.price != 0.0 && ind.atr != 0.0
    ensures o.Blocked? <==> !RiskManager.CanTrade(RiskManager.CheckDailyLimits(limits, tradesToday, dailyPnl))
    ensures o.Blocked? ==> o.check == RiskManager.CheckDailyLimits(limits, tradesToday, dailyPnl)
    ensures !o.Blocked? ==>
              var plan := PlanTrade(limits, ind, AccountBalance(dryRun, balance));
              (o.Rejected? <==> !RiskManager.IsApproved(RiskManager.ValidateTrade(limits, "BUY", plan.positionUsdt, openCount, dailyPnl)))
              && (o.Executed? <==> RiskManager.IsApproved(RiskManager.ValidateTrade(limits, "BUY", plan.positionUsdt, openCount, dailyPnl))
                                   && (dryRun || Filled(order)))
              && (o.Executed? ==> o.plan == plan)
  {
    var check := RiskManager.CheckDailyLimits(limits, tradesToday, dailyPnl);
    if !RiskManager.CanTrade(check) then Blocked(check)
    else
      var plan := PlanTrade(limits, ind, AccountBalance(dryRun, balance));
      var validation := RiskManager.ValidateTrade(limits, "BUY", plan.positionUsdt, openCount, dailyPnl);
      if !RiskManager.IsApproved(validation) then Rejected(validation)
      else if !dryRun && !Filled(order) then OrderNotFilled
      else Executed(plan)
  }

  /** An executed trade stays within the daily limits, the open-position cap
      and the configured maximum size, and its loss at the stop is at most 2%
      of the balance used. */
  lemma ExecutedWithinLimits(limits: RiskManager.Limits, dryRun: bool, tradesToday: int, dailyPnl: real,
                             openCount: nat, ind: Indicators, balance: BalanceAnswer, order: OrderAnswer)
    requires RiskManager.CanTrade(RiskManager.CheckDailyLimits(limits, tradesToday, dailyPnl)) ==>
               ind.price != 0.0 && ind.atr != 0.0
    requires ExecuteOutcome(limits, dryRun, tradesToday, dailyPnl, openCount, ind, balance, order).Executed?
    ensures tradesToday < limits.maxDailyTrades && openCount < limits.maxOpenPositions
    ensures var p := ExecuteOutcome(limits, dryRun, tradesToday, dailyPnl, openCount, ind, balance, order).plan;
            10.0 <= p.positionUsdt <= limits.maxPositionSizeUsdt
            && (ind.price > 0.0 ==> p.quantity * AbsReal(ind.price - p.stopLoss) <= AccountBalance(dryRun, balance) * 0.02)
  {
    var p := ExecuteOutcome(limits, dryRun, tradesToday, dailyPnl, openCount, ind, balance, order).plan;
    assert AbsReal(ind.price - p.stopLoss) == AbsReal(2.0 * ind.atr);
  }

  /** A position as the bot saves it for the monitor. */
  datatype BotPosition = BotPosition(
    pair: string,
    entry: real,
    quantity: real,
    stopLoss: real,
    takeProfit: real,
    orderId: Option<string>,
    confidence: int,
    reasoning: string,
    openedAt: string,
    id: string)

  /** The position `execute_trade` saves for a trade: the plan's levels and
      quantity at the indicators' price, the order id (none in paper mode),
      the decision, the opening time and the id of the pair and the clock's
      whole seconds. */
  function Saved(pair: string, ind: Indicators, plan: TradePlan, decision: LlmDecision.Decision,
                 dryRun: bool, inputs: TradeInputs): (p: BotPosition)
    ensures p.pair == pair && p.entry == ind.price && p.openedAt == inputs.nowIso
    ensures p.quantity == plan.quantity && p.stopLoss == plan.stopLoss && p.takeProfit == plan.takeProfit
    ensures p.orderId == if dryRun || inputs.order.OrderRaised? then None else inputs.order.orderId
    ensures p.confidence == decision.confidence && p.reasoning == decision.reasoning
  {
    BotPosition(pair, ind.price, plan.quantity, plan.stopLoss, plan.takeProfit,
                if dryRun || inputs.order.OrderRaised? then None else inputs.order.orderId,
                decision.confidence, decision.reasoning, inputs.nowIso, pair + "_" + IntToString(inputs.nowSeconds))
  }

  /** The inputs one trade attempt reads: the model's reply, the balance and
      order answers, the positions file as loaded, and the clock. */
  datatype TradeInputs = TradeInputs(
    reply: LlmDecision.Reply,
    balance: BalanceAnswer,
    order: OrderAnswer,
    onDisk: seq<BotPosition>,
    nowIso: string,
    nowSeconds: int)

  /** What one cycle reads: the symbol list (None when its call raised), each
      symbol's candles, and the inputs of the k-th evaluated opportunity. */
  datatype Cycle = Cycle(
    symbols: Option<seq<string>>,
    klines: string -> KlineSample,
    inputs: nat -> TradeInputs)

  /** What a cycle changes: the bot's positions, today's trade count, and
      the number of trades executed so far in the cycle. */
  datatype CycleState = CycleState(positions: seq<BotPosition>, tradesToday: int, executed: nat)

  /** `execute_trade` sizes a candidate, dividing by its ATR-based stop
      distance, only when the model proposes the trade and the daily gate
      is open; only then must its ATR be non-zero.  A flat candidate the
      model answers WAIT, or one reached after the gate closed, is an
      ordinary opportunity. */
  predicate SizedWhenReached(limits: RiskManager.Limits, dailyPnl: real, tradesToday: int,
                             c: Candidate, inputs: TradeInputs) {
    EvaluateOpportunity(c, inputs.reply).0
    && RiskManager.CanTrade(RiskManager.CheckDailyLimits(limits, tradesToday, dailyPnl))
    ==> c.indicators.atr != 0.0
  }

  /** One opportunity of `run_cycle`: the model is asked, and a BUY with
      confidence of at least 7 goes to `execute_trade`; a trade that goes
      through replaces the positions by the file's list plus the new one,
      and counts toward today's trades in live mode only. */
  function TradeStep(limits: RiskManager.Limits, dryRun: bool, dailyPnl: real, st: CycleState,
                     c: Candidate, inputs: TradeInputs): (r: CycleState)
    requires SizedWhenReached(limits, dailyPnl, st.tradesToday, c, inputs)
    ensures r.executed == st.executed + 1 <==>
              EvaluateOpportunity(c, inputs.reply).0
              && ExecuteOutcome(limits, dryRun, st.tradesToday, dailyPnl, |st.positions|, c.indicators,
                                inputs.balance, inputs.order).Executed?
    ensures r.executed != st.executed + 1 ==> r == st
    ensures r.tradesToday == st.tradesToday + (if !dryRun && r.executed == st.executed + 1 then 1 else 0)
  {
    var evaluation := EvaluateOpportunity(c, inputs.reply);
    if !evaluation.0 then st
    else
      var o := ExecuteOutcome(limits, dryRun, st.tradesToday, dailyPnl, |st.positions|, c.indicators,
                              inputs.balance, inputs.order);
      if !o.Executed? then st
      else
        CycleState(inputs.onDisk + [Saved(c.pair, c.indicators, o.plan, evaluation.1.value, dryRun, inputs)],
                   st.tradesToday + (if dryRun then 0 else 1), st.executed + 1)
  }

  /** The opportunities of a cycle taken in ranked order, the k-th with the
      k-th inputs.  Each one executes at most one trade, and the daily gate
      keeps the trade count from passing the daily maximum. */
  function CycleOutcome(limits: RiskManager.Limits, dryRun: bool, dailyPnl: real, st: CycleState,
                        top: seq<Candidate>, inputs: nat -> TradeInputs): (r: CycleState)
    requires SizableCycle(limits, dryRun, dailyPnl, st, top, inputs)
    ensures st.executed <= r.executed <= st.executed + |top|
    ensures r.tradesToday == st.tradesToday + (if dryRun then 0 else r.executed - st.executed)
    ensures st.tradesToday <= r.tradesToday <= MaxInt(st.tradesToday, limits.maxDailyTrades)
    ensures r.executed == st.executed ==> r == st
    decreases |top|, 1
  {
    if top == [] then st
    else
      var before := CycleOutcome(limits, dryRun, dailyPnl, st, top[..|top| - 1], inputs);
      TradeStep(limits, dryRun, dailyPnl, before, top[|top| - 1], inputs(|top| - 1))
  }

  /** Every opportunity of a cycle that reaches the sizing, in the state
      the opportunities before it leave, has a non-zero ATR. */
  predicate SizableCycle(limits: RiskManager.Limits, dryRun: bool, dailyPnl: real, st: CycleState,
                         top: seq<Candidate>, inputs: nat -> TradeInputs)
    decreases |top|, 0
  {
    top == []
    || (SizableCycle(limits, dryRun, dailyPnl, st, top[..|top| - 1], inputs)
        && SizedWhenReached(limits, dailyPnl,
                            CycleOutcome(limits, dryRun, dailyPnl, st, top[..|top| - 1], inputs).tradesToday,
                            top[|top| - 1], inputs(|top| - 1)))
  }

  /** A cycle whose opportunities are all sized safely stays so when cut
      short. */
  lemma {:induction false} SizablePrefix(limits: RiskManager.Limits, dryRun: bool, dailyPnl: real, st: CycleState,
                                         top: seq<Candidate>, inputs: nat -> TradeInputs, k: nat)
    requires k <= |top| && SizableCycle(limits, dryRun, dailyPnl, st, top, inputs)
    ensures SizableCycle(limits, dryRun, dailyPnl, st, top[..k], inputs)
    decreases |top|
  {
    if k < |top| {
      var init := top[..|top| - 1];
      SizablePrefix(limits, dryRun, dailyPnl, st, init, inputs, k);
      assert init[..k] == top[..k];
    } else {
      assert top[..k] == top;
    }
  }

  /** In a cycle sized safely, the k-th opportunity is sized safely from
      the state the ones before it leave. */
  lemma SizableAt(limits: RiskManager.Limits, dryRun: bool, dailyPnl: real, st: CycleState,
                  top: seq<Candidate>, inputs: nat -> TradeInputs, k: nat)
    requires k < |top| && SizableCycle(limits, dryRun, dailyPnl, st, top, inputs)
    ensures SizableCycle(limits, dryRun, dailyPnl, st, top[..k], inputs)
            && SizedWhenReached(limits, dailyPnl,
                                CycleOutcome(limits, dryRun, dailyPnl, st, top[..k], inputs).tradesToday,
                                top[k], inputs(k))
  {
    SizablePrefix(limits, dryRun, dailyPnl, st, top, inputs, k + 1);
    var t := top[..k + 1];
    assert t[..|t| - 1] == top[..k] && t[|t| - 1] == top[k];
  }

  /** A candidate that never reaches the sizing, because the model does not
      propose it or the daily gate is closed, is no obstacle whatever its
      ATR: the cycle of that one opportunity is sized safely and leaves the
      state as it was. */
  lemma UnsizedCandidateIsOrdinary(limits: RiskManager.Limits, dryRun: bool, dailyPnl: real, st: CycleState,
                                   c: Candidate, inputs: nat -> TradeInputs)
    requires !EvaluateOpportunity(c, inputs(0).reply).0
             || !RiskManager.CanTrade(RiskManager.CheckDailyLimits(limits, st.tradesToday, dailyPnl))
    ensures SizableCycle(limits, dryRun, dailyPnl, st, [c], inputs)
    ensures CycleOutcome(limits, dryRun, dailyPnl, st, [c], inputs) == st
  {
    assert [c][..0] == [] && [c][0] == c;
    assert SizableCycle(limits, dryRun, dailyPnl, st, [], inputs);
    assert CycleOutcome(limits, dryRun, dailyPnl, st, [], inputs) == st;
    assert SizedWhenReached(limits, dailyPnl, st.tradesToday, c, inputs(0));
  }

  /** Taking one more opportunity extends the cycle by one step. */
  lemma CycleStep(limits: RiskManager.Limits, dryRun: bool, dailyPnl: real, st: CycleState,
                  top: seq<Candidate>, inputs: nat -> TradeInputs, k: nat)
    requires k < |top| && SizableCycle(limits, dryRun, dailyPnl, st, top[..k], inputs)
    requires SizedWhenReached(limits, dailyPnl, CycleOutcome(limits, dryRun, dailyPnl, st, top[..k], inputs).tradesToday,
                              top[k], inputs(k))
    ensures SizableCycle(limits, dryRun, dailyPnl, st, top[..k + 1], inputs)
    ensures CycleOutcome(limits, dryRun, dailyPnl, st, top[..k + 1], inputs)
            == TradeStep(limits, dryRun, dailyPnl, CycleOutcome(limits, dryRun, dailyPnl, st, top[..k], inputs),
                         top[k], inputs(k))
  {
    var t := top[..k + 1];
    assert t[..|t| - 1] == top[..k] && t[|t| - 1] == top[k];
  }

  /** The positions and trade count one cycle leaves: unchanged when the
      symbol list could not be fetched, otherwise the outcome of its ranked
      opportunities. */
  function AfterCycle(limits: RiskManager.Limits, dryRun: bool, minScore: int, topN: int, dailyPnl: real,
                      st: CycleState, c: Cycle): (r: CycleState)
    requires c.symbols.Some? ==>
               SizableCycle(limits, dryRun, dailyPnl, st, ScanTop(minScore, topN, c.klines, c.symbols.value), c.inputs)
    ensures c.symbols.None? ==> r == st
    ensures st.tradesToday <= r.tradesToday <= MaxInt(st.tradesToday, limits.maxDailyTrades)
    ensures dryRun ==> r.tradesToday == st.tradesToday
  {
    if c.symbols.None? then st
    else CycleOutcome(limits, dryRun, dailyPnl, st, ScanTop(minScore, topN, c.klines, c.symbols.value), c.inputs)
  }

  /** Every cycle `run_continuous` reaches is sized safely from the state
      the cycles before it leave; a cycle after which the daily gate is
      closed is the last one. */
  predicate SizableRun(limits: RiskManager.Limits, dryRun: bool, minScore: int, topN: int, dailyPnl: real,
                       positions: seq<BotPosition>, tradesToday: int, cycles: seq<Cycle>)
    decreases |cycles|
  {
    cycles == []
    || (var st := CycleState(positions, tradesToday, 0);
        var c := cycles[0];
        (c.symbols.Some? ==>
           SizableCycle(limits, dryRun, dailyPnl, st, ScanTop(minScore, topN, c.klines, c.symbols.value), c.inputs))
        && var r := AfterCycle(limits, dryRun, minScore, topN, dailyPnl, st, c);
           RiskManager.CanTrade(RiskManager.CheckDailyLimits(limits, r.tradesToday, dailyPnl))
           ==> SizableRun(limits, dryRun, minScore, topN, dailyPnl, r.positions, r.tradesToday, cycles[1..]))
  }

  /** The states `run_continuous` passes through: the state after each
      cycle it runs, up to and including the first one after which the
      daily gate is closed.  Every state but the last leaves the gate open,
      and a run cut short of its cycles ends on a closed gate. */
  function RunTrace(limits: RiskManager.Limits, dryRun: bool, minScore: int, topN: int, dailyPnl: real,
                    positions: seq<BotPosition>, tradesToday: int, cycles: seq<Cycle>): (t: seq<CycleState>)
    requires SizableRun(limits, dryRun, minScore, topN, dailyPnl, positions, tradesToday, cycles)
    ensures |t| <= |cycles| && (t == [] <==> cycles == [])
    ensures forall j :: 0 <= j < |t| - 1 ==>
              RiskManager.CanTrade(RiskManager.CheckDailyLimits(limits, t[j].tradesToday, dailyPnl))
    ensures t != [] && |t| < |cycles| ==>
              !RiskManager.CanTrade(RiskManager.CheckDailyLimits(limits, t[|t| - 1].tradesToday, dailyPnl))
    decreases |cycles|
  {
    if cycles == [] then []
    else
      var r := AfterCycle(limits, dryRun, minScore, topN, dailyPnl, CycleState(positions, tradesToday, 0), cycles[0]);
      if !RiskManager.CanTrade(RiskManager.CheckDailyLimits(limits, r.tradesToday, dailyPnl)) then [r]
      else [r] + RunTrace(limits, dryRun, minScore, topN, dailyPnl, r.positions, r.tradesToday, cycles[1..])
  }

  /** One more cycle of `run_continuous`: a run whose states so far are
      `trace[..ran]` next passes through the state the cycle `cycles[ran]`
      leaves, and goes on with the later cycles only while the gate stays
      open. */
  lemma TraceAdvance(limits: RiskManager.Limits, dryRun: bool, minScore: int, topN: int, dailyPnl: real,
                     trace: seq<CycleState>, cycles: seq<Cycle>, ran: nat,
                     positions: seq<BotPosition>, tradesToday: int)
    requires ran < |cycles| && ran <= |trace|
    requires SizableRun(limits, dryRun, minScore, topN, dailyPnl, positions, tradesToday, cycles[ran..])
    requires trace == trace[..ran]
                      + RunTrace(limits, dryRun, minScore, topN, dailyPnl, positions, tradesToday, cycles[ran..])
    ensures cycles[ran].symbols.Some? ==>
              SizableCycle(limits, dryRun, dailyPnl, CycleState(positions, tradesToday, 0),
                           ScanTop(minScore, topN, cycles[ran].klines, cycles[ran].symbols.value), cycles[ran].inputs)
    ensures var r := AfterCycle(limits, dryRun, minScore, topN, dailyPnl, CycleState(positions, tradesToday, 0),
                                cycles[ran]);
            ran < |trace| && trace[ran] == r && trace[..ran + 1] == trace[..ran] + [r]
            && (RiskManager.CanTrade(RiskManager.CheckDailyLimits(limits, r.tradesToday, dailyPnl)) ==>
                  SizableRun(limits, dryRun, minScore, topN, dailyPnl, r.positions, r.tradesToday, cycles[ran + 1..])
                  && trace == trace[..ran + 1]
                              + RunTrace(limits, dryRun, minScore, topN, dailyPnl, r.positions, r.tradesToday,
                                         cycles[ran + 1..]))
            && (!RiskManager.CanTrade(RiskManager.CheckDailyLimits(limits, r.tradesToday, dailyPnl)) ==>
                  |trace| == ran + 1)
  {
    var rest := cycles[ran..];
    assert rest[0] == cycles[ran] && rest[1..] == cycles[ran + 1..];
    var r := AfterCycle(limits, dryRun, minScore, topN, dailyPnl, CycleState(positions, tradesToday, 0), rest[0]);
    if RiskManager.CanTrade(RiskManager.CheckDailyLimits(limits, r.tradesToday, dailyPnl)) {
      var later := RunTrace(limits, dryRun, minScore, topN, dailyPnl, r.positions, r.tradesToday, rest[1..]);
      assert RunTrace(limits, dryRun, minScore, topN, dailyPnl, positions, tradesToday, rest) == [r] + later;
      SplitAfter(trace, ran, r, later);
    } else {
      assert RunTrace(limits, dryRun, minScore, topN, dailyPnl, positions, tradesToday, rest) == [r];
      SplitAfter(trace, ran, r, []);
    }
  }

  lemma SplitAfter<T>(s: seq<T>, n: nat, x: T, tail: seq<T>)
    requires n <= |s| && s == s[..n] + ([x] + tail)
    ensures n < |s| && s[n] == x && |s| == n + 1 + |tail|
    ensures s[..n + 1] == s[..n] + [x] && s == s[..n + 1] + tail
  {
    assert s[..n + 1] == s[..n] + [x];
  }

  class Bot {
    const dryRun: bool
    const limits: RiskManager.Limits
    const minScore: int
    const topPairsLimit: int
    var tradesToday: int
    var dailyPnl: real
    var positions: seq<BotPosition>

    /** A bot starts with zero counters and the positions file as loaded. */
    constructor(dryRun: bool, limits: RiskManager.Limits, minScore: int, topPairsLimit: int, stored: seq<BotPosition>)
      ensures this.dryRun == dryRun && this.limits == limits
      ensures this.minScore == minScore && this.topPairsLimit == topPairsLimit
      ensures tradesToday == 0 && dailyPnl == 0.0 && positions == stored
    {
      this.dryRun := dryRun;
      this.limits := limits;
      this.minScore := minScore;
      this.topPairsLimit := topPairsLimit;
      tradesToday := 0;
      dailyPnl := 0.0;
      positions := stored;
    }

    /** `save_position`: the new position, stamped with the opening time and
        an id made of the pair and the clock's whole seconds, is appended to
        the positions read back from the file, and that list becomes the
        bot's own. */
    method SavePosition(p: BotPosition, onDisk: seq<BotPosition>, nowIso: string, nowSeconds: int)
      modifies this
      ensures positions == onDisk + [p.(openedAt := nowIso, id := p.pair + "_" + IntToString(nowSeconds))]
      ensures tradesToday == old(tradesToday) && dailyPnl == old(dailyPnl)
    {
      var position := p.(openedAt := nowIso);
      position := position.(id := position.pair + "_" + IntToString(nowSeconds));
      positions := onDisk + [position];
    }

    /** `execute_trade` */
    method ExecuteTrade(pair: string, ind: Indicators, decision: LlmDecision.Decision, inputs: TradeInputs)
      returns (ok: bool)
      requires RiskManager.CanTrade(RiskManager.CheckDailyLimits(limits, tradesToday, dailyPnl)) ==>
                 ind.price != 0.0 && ind.atr != 0.0
      modifies this
      ensures var o := ExecuteOutcome(limits, dryRun, old(tradesToday), old(dailyPnl), |old(positions)|,
                                      ind, inputs.balance, inputs.order);
              (ok <==> o.Executed?)
              && (ok ==> positions == inputs.onDisk + [Saved(pair, ind, o.plan, decision, dryRun, inputs)])
      ensures !ok ==> positions == old(positions)
      ensures tradesToday == old(tradesToday) + (if ok && !dryRun then 1 else 0)
      ensures dailyPnl == old(dailyPnl)
    {
      var check := RiskManager.CheckDailyLimits(limits, tradesToday, dailyPnl);
      if !RiskManager.CanTrade(check) {
        return false;
      }
      var entry := ind.price;
      var stop := RiskManager.StopLoss(entry, ind.atr, "BUY");
      var target := RiskManager.TakeProfit(entry, ind.atr, "BUY");
      var balance := AccountBalance(dryRun, inputs.balance);
      var sizing := RiskManager.PositionSize(limits, entry, stop, balance);
      var quantity := sizing.quantity;
      var positionUsdt := quantity * entry;
      assert PlanTrade(limits, ind, balance) == TradePlan(stop, target, quantity, positionUsdt);
      var validation := RiskManager.ValidateTrade(limits, "BUY", positionUsdt, |positions|, dailyPnl);
      if !RiskManager.IsApproved(validation) {
        return false;
      }
      if dryRun {
        SavePosition(BotPosition(pair, entry, quantity, stop, target, None, decision.confidence,
                                 decision.reasoning, "", ""),
                     inputs.onDisk, inputs.nowIso, inputs.nowSeconds);
        return true;
      }
      match inputs.order {
        case OrderRaised(_) =>
          return false;
        case OrderReply(orderId, error) =>
          if error.Some? {
            return false;
          }
          SavePosition(BotPosition(pair, entry, quantity, stop, target, orderId, decision.confidence,
                                   decision.reasoning, "", ""),
                       inputs.onDisk, inputs.nowIso, inputs.nowSeconds);
          tradesToday := tradesToday + 1;
          return true;
      }
    }

    /** Every candidate of the cycle that reaches the sizing from the bot's
        present state has the non-zero ATR that sizing divides by. */
    predicate CycleSizable(c: Cycle)
      reads this
    {
      c.symbols.Some? ==>
        SizableCycle(limits, dryRun, dailyPnl, CycleState(positions, tradesToday, 0),
                     ScanTop(minScore, topPairsLimit, c.klines, c.symbols.value), c.inputs)
    }

    /** The body of the `run_cycle` loop for one opportunity. */
    method TakeOpportunity(opp: Candidate, inputs: TradeInputs, executed: nat) returns (executed': nat)
      requires SizedWhenReached(limits, dailyPnl, tradesToday, opp, inputs)
      modifies this
      ensures CycleState(positions, tradesToday, executed')
              == TradeStep(limits, dryRun, old(dailyPnl), CycleState(old(positions), old(tradesToday), executed), opp, inputs)
      ensures dailyPnl == old(dailyPnl)
    {
      executed' := executed;
      var evaluation := EvaluateOpportunity(opp, inputs.reply);
      if evaluation.0 {
        var ok := ExecuteTrade(opp.pair, opp.indicators, evaluation.1.value, inputs);
        if ok {
          executed' := executed + 1;
        }
      }
    }

    /** `run_cycle`: scan, then evaluate every opportunity of the ranked
        list in order and execute the approved ones; a failed scan ends the
        cycle with nothing done.  The trade counter grows by at most one per
        opportunity and never past the daily maximum; the bot's daily P&L
        does not move. */
    method RunCycle(c: Cycle) returns (executed: nat)
      requires CycleSizable(c)
      modifies this
      ensures c.symbols.None? ==> executed == 0 && positions == old(positions) && tradesToday == old(tradesToday)
      ensures c.symbols.Some? ==>
                CycleState(positions, tradesToday, executed)
                == CycleOutcome(limits, dryRun, old(dailyPnl), CycleState(old(positions), old(tradesToday), 0),
                                ScanTop(minScore, topPairsLimit, c.klines, c.symbols.value), c.inputs)
      ensures var r := AfterCycle(limits, dryRun, minScore, topPairsLimit, old(dailyPnl),
                                  CycleState(old(positions), old(tradesToday), 0), c);
              positions == r.positions && tradesToday == r.tradesToday
      ensures dailyPnl == old(dailyPnl)
      ensures old(tradesToday) <= tradesToday <= MaxInt(old(tradesToday), limits.maxDailyTrades)
      ensures dryRun ==> tradesToday == old(tradesToday)
      ensures !dryRun ==> tradesToday == old(tradesToday) + executed
    {
      executed := 0;
      if c.symbols.None? {
        return;
      }
      var top, _ := ScanAndAnalyze(minScore, topPairsLimit, c.klines, c.symbols.value);
      ghost var start := CycleState(positions, tradesToday, 0);
      ghost var pnl := dailyPnl;
      var k := 0;
      while k < |top|
        invariant 0 <= k <= |top|
        invariant dailyPnl == pnl
        invariant SizableCycle(limits, dryRun, pnl, start, top[..k], c.inputs)
        invariant CycleState(positions, tradesToday, executed)
                  == CycleOutcome(limits, dryRun, pnl, start, top[..k], c.inputs)
      {
        SizableAt(limits, dryRun, pnl, start, top, c.inputs, k);
        CycleStep(limits, dryRun, pnl, start, top, c.inputs, k);
        executed := TakeOpportunity(top[k], c.inputs(k), executed);
        k := k + 1;
      }
      assert top[..k] == top;
    }

    /** `run_continuous`: cycles run until the daily gate fails after one of
        them; running out of `cycles` stands for the user's interrupt.  The
        cycles run are those of `RunTrace`, so the loop stops after the first
        cycle that closes the gate and not later, and the bot ends in the
        state the last of them leaves.  In paper mode the gate's inputs never
        change, so a bot that may trade at the start never stops by itself. */
    method RunContinuous(cycles: seq<Cycle>) returns (ran: nat, stopped: bool)
      requires SizableRun(limits, dryRun, minScore, topPairsLimit, dailyPnl, positions, tradesToday, cycles)
      modifies this
      ensures var t := RunTrace(limits, dryRun, minScore, topPairsLimit, old(dailyPnl), old(positions),
                                old(tradesToday), cycles);
              ran == |t|
              && (t == [] ==> positions == old(positions) && tradesToday == old(tradesToday))
              && (t != [] ==> positions == t[|t| - 1].positions && tradesToday == t[|t| - 1].tradesToday
                              && (stopped <==> !RiskManager.CanTrade(RiskManager.CheckDailyLimits(
                                                  limits, t[|t| - 1].tradesToday, old(dailyPnl)))))
      ensures ran <= |cycles|
      ensures stopped ==> ran >= 1 && !RiskManager.CanTrade(RiskManager.CheckDailyLimits(limits, tradesToday, dailyPnl))
      ensures !stopped ==> ran == |cycles|
      ensures ran >= 1 && !stopped ==> RiskManager.CanTrade(RiskManager.CheckDailyLimits(limits, tradesToday, dailyPnl))
      ensures dryRun && RiskManager.CanTrade(RiskManager.CheckDailyLimits(limits, old(tradesToday), old(dailyPnl)))
              ==> !stopped
      ensures dailyPnl == old(dailyPnl)
    {
      ran, stopped := 0, false;
      ghost var trace := RunTrace(limits, dryRun, minScore, topPairsLimit, dailyPnl, positions, tradesToday, cycles);
      while ran < |cycles|
        invariant ran <= |cycles|
        invariant dailyPnl == old(dailyPnl)
        invariant dryRun ==> tradesToday == old(tradesToday)
        invariant ran >= 1 ==> RiskManager.CanTrade(RiskManager.CheckDailyLimits(limits, tradesToday, dailyPnl))
        invariant SizableRun(limits, dryRun, minScore, topPairsLimit, dailyPnl, positions, tradesToday, cycles[ran..])
        invariant ran <= |trace|
        invariant trace == trace[..ran]
                           + RunTrace(limits, dryRun, minScore, topPairsLimit, dailyPnl, positions, tradesToday, cycles[ran..])
        invariant ran == 0 ==> positions == old(positions) && tradesToday == old(tradesToday)
        invariant ran >= 1 ==> positions == trace[ran - 1].positions && tradesToday == trace[ran - 1].tradesToday
      {
        TraceAdvance(limits, dryRun, minScore, topPairsLimit, dailyPnl, trace, cycles, ran, positions, tradesToday);
        ghost var r := AfterCycle(limits, dryRun, minScore, topPairsLimit, dailyPnl,
                                  CycleState(positions, tradesToday, 0), cycles[ran]);
        var _ := RunCycle(cycles[ran]);
        assert positions == r.positions && tradesToday == r.tradesToday;
        ran := ran + 1;
        var check := RiskManager.CheckDailyLimits(limits, tradesToday, dailyPnl);
        if !RiskManager.CanTrade(check) {
          stopped := true;
          return;
        }
        assert SizableRun(limits, dryRun, minScore, topPairsLimit, dailyPnl, r.positions, r.tradesToday, cycles[ran..]);
        assert trace == trace[..ran]
                        + RunTrace(limits, dryRun, minScore, topPairsLimit, dailyPnl, r.positions, r.tradesToday,
                                   cycles[ran..]);
        assert trace[ran - 1] == r;
      }
    }
  }
}
