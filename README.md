# SilkTrader v3 — a verified model of the trading core

SilkTrader v3 is a crypto trading bot for the Pionex exchange. It scans USDT
pairs and scores their technical setups. It asks a language model for a
BUY/SELL/WAIT decision, sizes and gates orders under fixed risk limits, and
monitors open positions with trailing stops. It also replays history in a
backtest engine. This project models the decision and bookkeeping core of
that system in Dafny and proves properties of the model.

Every module mirrors one source file:

- `RiskManager` (risk_manager.py): risk-based sizing, trade validation with
  its fixed check order, ATR stop-loss and take-profit, the stateless
  trailing rule and the daily-limit gate.
- `Indicators` (lib/indicators.py): the indicator record and `score_setup`,
  the 0–7 setup score.
- `Scanner` (scanner.py): the 0–100 opportunity score with bonuses and
  reasoning text, the sorted USDT pair list, and `scan_markets`. That last is
  a loop that filters pairs, counts each skip in one filter bucket, ranks
  the survivors and keeps the top N.
- `LlmDecision` (lib/llm_decision.py): the line-by-line reply parser and the
  error fallback of `analyze_opportunity`.
- `ExchangeManager` (lib/exchange_manager.py): the affordability rule and the
  order-gating pipeline. Its class `Exchange` holds the daily trade counter
  and daily P&L updated by `execute_trade`, `update_daily_pnl` and
  `reset_daily_counters`.
- `PositionMonitor` (monitor_positions.py): class `Monitor` keeps the
  position book and session statistics, ratchets trailing stops, decides
  exits and closes positions.
- `TraderBot` (silktrader_bot.py): class `Bot` covers the scan-and-rank loop,
  the trade rule, the gated execution, the cycle and the continuous run
  with its stop rule.
- `OvernightAnalysis` (analyze_overnight.py): the folds over closed trades
  and open positions, plus the overall total.
- `SyncPositions` (scripts/sync_positions.py): the conversion of open
  database trades into monitor positions.
- `BacktestModel`, `BacktestAccount`, `BacktestEngine` and
  `BacktestPairExits` (lib/backtest_engine.py):
  - the per-trade rules: costs, tier sizing, levels, the ratchet, the candle
    exit rule and the timeframe string;
  - the account value and its invariant, and the metrics;
  - class `Engine` and the tick loop of `run_backtest`;
  - the pair-restricted exit pass, which is the evidently intended version
    of `check_exits`.
- `Basics`, `Text` and `Ranking` are shared vocabulary:
  - an optional value and real min/max;
  - Python's `str.strip`, `split`, `upper`, `int()` and decimal rendering;
  - Python's stable `sort(key=…, reverse=True)`, `sorted`, slicing and
    keyed `max`/`min`.

Prices and amounts are `real`. Anything outside the core becomes an input of
the operation that uses it. That covers:

- exchange replies, fetched candles and computed indicators;
- the language model's reply;
- order results;
- the clock and the ISO date strings;
- the risk-manager signatures that the callers use but that
  `risk_manager.py` does not define.

An exception that the source catches becomes an error result. An exception
that would escape becomes a precondition: a division by a zero entry price,
a zero stop distance when a trade is sized, or the backtest's progress line
in a window of one instant. Each such precondition is named under
"## Left out".

The backtest engine keeps `check_exits` exactly as written: the candle of
the pair being visited is applied to every open position. The corrected
pass is modelled beside it (see Findings). Likewise `SyncPositions.Sync`
models the script as written, and `IntendedSyncResult` is the corrected
conversion.

## Model

| member | source | states |
|---|---|---|
| LlmDecision.ParseAction | lib/llm_decision.py:139-141 | exactly the words BUY, SELL and WAIT are accepted, each as its own action; any other word is rejected |
| LlmDecision.ClampConfidence | lib/llm_decision.py:146 | the confidence lands in [1, 10]: unchanged inside, 1 below, 10 above |
| LlmDecision.KeysDistinct | lib/llm_decision.py:138-151 | a line starts with at most one of the three keys, so the order of the `elif` tests decides nothing |
| LlmDecision.ParseDecision | lib/llm_decision.py:121-153 | the parsing loop returns the default decision with every line of the stripped, newline-split reply applied in order (`ParsedDecision`) |
| LlmDecision.ParseLine | lib/llm_decision.py:138-151 | one pass of the loop body changes the decision exactly as `ApplyLine` says |
| LlmDecision.ApplyLineKeepsConfidence | lib/llm_decision.py:143-148 | no line takes a confidence in [1, 10] out of that range |
| LlmDecision.ApplyLinesKeepsConfidence | lib/llm_decision.py:137-151 | reading any number of lines keeps the confidence in [1, 10] |
| LlmDecision.ParsedConfidenceInRange | lib/llm_decision.py:130-153 | whatever the model replies, the parsed confidence lies in [1, 10] |
| LlmDecision.OtherLinesIgnored | lib/llm_decision.py:137-151 | lines that start with none of the keys leave the decision as it is |
| LlmDecision.NoKeyLinesGiveDefault | lib/llm_decision.py:131-135 | a reply without any key line parses to WAIT, confidence 5, "Unable to parse response" |
| LlmDecision.ReasoningOnlyFromReasoningLines | lib/llm_decision.py:150-151 | only REASONING lines change the reasoning |
| LlmDecision.ReasoningLine | lib/llm_decision.py:150-151 | a REASONING line sets the reasoning to the stripped text after its first colon |
| LlmDecision.OtherLineKeepsReasoning | lib/llm_decision.py:138-148 | ACTION, CONFIDENCE and other lines keep the reasoning |
| LlmDecision.LastReasoningWins | lib/llm_decision.py:137-151 | the reasoning comes from the last REASONING line of the reply |
| LlmDecision.ValueAfterKey | lib/llm_decision.py:139 | the value of a key line is everything after the key, stripped: later colons belong to the value |
| LlmDecision.ActionLine | lib/llm_decision.py:138-141 | `ACTION:` with BUY, SELL or WAIT in any case sets that action; any other word changes nothing |
| LlmDecision.ConfidenceLine | lib/llm_decision.py:143-148 | `CONFIDENCE:` whose first word is an integer sets that integer clamped to [1, 10]; without a first word the line is ignored |
| LlmDecision.ReasoningLineValue | lib/llm_decision.py:150-151 | `REASONING:` replaces the reasoning with the rest of the line, stripped |
| LlmDecision.AnalyzeOpportunity | lib/llm_decision.py:36-43 | a zero price raises out of the prompt (no result); a failed call gives WAIT with confidence 0 and the error text, which no parsed reply can produce; otherwise the parsed reply |
| Text.ParseIntOfIntToString | lib/llm_decision.py:145 | `int()` reads a rendered integer back as that integer, negative ones included |
| RiskManager.PositionSize | skills/silktrader-trader/scripts/risk_manager.py:28-43 | the risk is 2% of the balance; the position is the one whose stop-out loses exactly that risk, unless the configured cap is smaller; the quantity is the position over the entry price |
| RiskManager.PositionSizeRiskBounded | skills/silktrader-trader/scripts/risk_manager.py:28-43 | for a positive entry, the loss at the stop never exceeds the 2% risk budget |
| RiskManager.PositionSizeExample | tests/test_risk_manager.py:24-29 | balance 1000, entry 50000, stop 48500 and a 500 USDT cap give 0.01 units |
| RiskManager.ValidateTrade | skills/silktrader-trader/scripts/risk_manager.py:68-85 | a trade is approved exactly when it is at most 1% over the size cap, below the position limit, within the daily loss and at least 10 USDT; each refusal holds exactly when its own check fails and every earlier check (size, positions, daily loss, minimum) passes |
| RiskManager.ValidateIgnoresSide | skills/silktrader-trader/scripts/risk_manager.py:53-85 | the side plays no part in validation |
| RiskManager.StopLoss | skills/silktrader-trader/scripts/risk_manager.py:98-103 | the stop lies two ATRs against the position: below the entry for "BUY", above it for any other side |
| RiskManager.TakeProfit | skills/silktrader-trader/scripts/risk_manager.py:116-121 | the target lies three ATRs in favour of the position |
| RiskManager.AtrLevelsBracketEntry | skills/silktrader-trader/scripts/risk_manager.py:98-121 | with a positive ATR the entry lies strictly between stop and target, and the reward is 1.5 times the risk |
| RiskManager.AtrLevelsExample | skills/silktrader-trader/scripts/risk_manager.py:98-121 | entry 100 and ATR 2 give stop 96 and target 106 |
| RiskManager.TrailingStop | skills/silktrader-trader/scripts/risk_manager.py:136-156 | trailing activates exactly when the profit fraction reaches the activation percentage; the stop then sits the distance percentage behind the current price; otherwise (False, 0.0) |
| RiskManager.TrailingStopMonotone | skills/silktrader-trader/scripts/risk_manager.py:139-146 | for a long, a higher price keeps trailing active and never gives a lower stop |
| RiskManager.TrailingStopExample | skills/silktrader-trader/scripts/risk_manager.py:136-146 | 3% activation and 1.5% distance, entry 50000 and price 51600 give a stop of 50826 |
| RiskManager.CheckDailyLimits | skills/silktrader-trader/scripts/risk_manager.py:186-193 | trading is allowed exactly when the trade count is below the limit and the loss within its limit; the trade count is checked first |
| RiskManager.TradeLimitIgnoresPnl | skills/silktrader-trader/scripts/risk_manager.py:186-187 | once the trade limit is reached, the day's P&L makes no difference |
| Indicators.TrendPoints | lib/indicators.py:74-77 | two points exactly for price > fast EMA > slow EMA, one exactly for price above the fast EMA alone, none otherwise |
| Indicators.RsiPoints | lib/indicators.py:80-81 | one point exactly for a rising RSI strictly inside (30, 70) |
| Indicators.MacdPoints | lib/indicators.py:84-87 | at least one point exactly for a positive histogram, two exactly when the MACD line is also above its signal |
| Indicators.VolumePoints | lib/indicators.py:90-91 | one point exactly for a volume ratio strictly above 1.2 |
| Indicators.VolatilityPoints | lib/indicators.py:94-96 | one point exactly for an ATR strictly between 1% and 5% of the price |
| Indicators.ScoreSetup | lib/indicators.py:69-98 | a zero price raises (no score); otherwise the score is the sum of the five components and lies in [0, 7] |
| Indicators.MacdCrossNeedsHistogram | lib/indicators.py:84-87 | a MACD line above its signal adds nothing while the histogram is not positive |
| Indicators.ScoreSetupMaximal | lib/indicators.py:69-98 | the score is 7 exactly when every component is at its maximum |
| Ranking.SortDescCorrect | skills/silktrader-scanner/scripts/scanner.py:270 | the descending sort by score is ordered, a permutation of its input, and stable: entries with equal scores keep their scan order |
| Ranking.SortDescSorted | skills/silktrader-scanner/scripts/scanner.py:270 | the descending sort is ordered by score |
| Ranking.SortDescPerm | skills/silktrader-scanner/scripts/scanner.py:270 | the descending sort keeps exactly the entries it was given |
| Ranking.SortDescStable | skills/silktrader-scanner/scripts/scanner.py:270 | among the entries with one score, the sorted list keeps the input order |
| Ranking.InsertDescSorted | skills/silktrader-scanner/scripts/scanner.py:270 | inserting into a list ordered by score keeps it ordered |
| Ranking.InsertDescPerm | skills/silktrader-scanner/scripts/scanner.py:270 | inserting adds exactly the inserted entry |
| Ranking.InsertDescWithKey | skills/silktrader-scanner/scripts/scanner.py:270 | an inserted entry goes after every entry with its score |
| Ranking.PyPrefix | skills/silktrader-scanner/scripts/scanner.py:273 | `s[:n]` is a prefix of `s`: of length n when n is not negative, of length len+n when negative (never below zero) |
| Ranking.SortStringsCorrect | skills/silktrader-scanner/scripts/scanner.py:66 | `sorted()` on the pair names is ordered by code points and is a permutation of the exchange's list |
| Ranking.InsertAscSorted | skills/silktrader-scanner/scripts/scanner.py:66 | inserting a name into an ordered list keeps it ordered |
| Ranking.InsertAscPerm | skills/silktrader-scanner/scripts/scanner.py:66 | inserting a name adds exactly that name |
| Ranking.LexLeTotal | skills/silktrader-scanner/scripts/scanner.py:66 | any two names are comparable |
| Ranking.LexLeTrans | skills/silktrader-scanner/scripts/scanner.py:66 | the order on names is transitive |
| Scanner.TruncToInt | skills/silktrader-scanner/scripts/scanner.py:138 | Python's `int()` on a float truncates toward zero |
| Scanner.TrendBonus | skills/silktrader-scanner/scripts/scanner.py:111-120 | 15, 10 or 5 points exactly for an EMA spread above 2, 1 or 0.5 percent (each bound exclusive), none otherwise; one reason exactly when points are given |
| Scanner.RsiBonus | skills/silktrader-scanner/scripts/scanner.py:123-132 | 10, 7 or 5 points exactly for an RSI strictly inside (40, 60), (30, 40) or (60, 70); none at 30, 40, 60, 70 and outside |
| Scanner.VolumeBonus | skills/silktrader-scanner/scripts/scanner.py:135-141 | 5 points above a ratio of 2.0, 3 above 1.5; the reason quotes the excess volume as a truncated percentage |
| Scanner.ReasonText | skills/silktrader-scanner/scripts/scanner.py:114-141 | every reason text differs from "Standard setup" in its first or third character |
| Scanner.ScoreOpportunity | skills/silktrader-scanner/scripts/scanner.py:103-147 | no score where Python raises (zero price or zero slow EMA); otherwise ten times the setup score plus the three bonuses, capped at 100 |
| Scanner.ScoreOpportunityBounds | skills/silktrader-scanner/scripts/scanner.py:103-144 | the score lies in [0, 100] |
| Scanner.ReasoningStandardIffNoBonus | skills/silktrader-scanner/scripts/scanner.py:146 | the reasoning is "Standard setup" exactly when no bonus applied; otherwise it starts with the text of the first reason applied (trend, then RSI, then volume) |
| Scanner.BonusBoundaries | skills/silktrader-scanner/scripts/scanner.py:124-141 | an RSI of exactly 30, 40, 60 or 70 earns no RSI bonus; a volume ratio of exactly 2.0 earns 3, not 5 |
| Scanner.StrongSetupScores | tests/test_scanner.py:148-167 | the tests' strong indicator set scores 98, so at least 70 |
| Scanner.StrongSetupReasoning | tests/test_scanner.py:148-167 | its reasoning lists the trend, RSI and volume reasons in that order, the volume quoted as +100% |
| Scanner.WeakSetupScores | tests/test_scanner.py:171-188 | the tests' weak indicator set scores 0, so below 50, with the standard reasoning |
| Scanner.GetUsdtPairs | skills/silktrader-scanner/scripts/scanner.py:55-70 | a failed call gives no pairs; otherwise the exchange's list, ordered and with nothing added or lost |
| Scanner.Judge | skills/silktrader-scanner/scripts/scanner.py:214-238 | an accepted pair carries its own name and at least the minimum score; a pair is filtered as unaffordable only when the check applies (enabled, an exchange manager present, a positive balance); scoring fails exactly when scoring raises |
| Scanner.Classify | skills/silktrader-scanner/scripts/scanner.py:194-252 | an accepted pair carries its own name and at least the minimum score; the unaffordable filter needs the check enabled |
| Scanner.AcceptedOf | skills/silktrader-scanner/scripts/scanner.py:191-253 | the collected opportunities are no more than the pairs and all meet the minimum score |
| Scanner.Count | skills/silktrader-scanner/scripts/scanner.py:196-253 | every pair raises exactly one counter by one |
| Scanner.TallyCountsEveryPair | skills/silktrader-scanner/scripts/scanner.py:191-267 | the counters add up to the number of pairs, and the accepted counter equals the number of opportunities |
| Scanner.NoAffordabilityFilterWhenOff | skills/silktrader-scanner/scripts/scanner.py:187-238 | without the affordability check no pair is counted as unaffordable |
| Scanner.ScanResultProperties | skills/silktrader-scanner/scripts/scanner.py:269-296 | the result meets the minimum score, is ordered by score, holds exactly min(top_n, accepted) entries for a non-negative top_n, holds only accepted opportunities, and leaves out no accepted opportunity that scores above one it keeps |
| Scanner.ScanPair | skills/silktrader-scanner/scripts/scanner.py:192-267 | one pass of the loop body records the pair in the counter and list that `Classify` decides |
| Scanner.ScanMarkets | skills/silktrader-scanner/scripts/scanner.py:149-296 | the scan returns the top_n of the accepted opportunities ranked by score, with the counters of every pair's outcome; no pairs gives an empty result |
| ExchangeManager.MinNotional | lib/exchange_manager.py:89-93 | the minimum order in USDT is the larger of the minimum amount and the minimum trade size at the entry price, missing fields counting as zero |
| ExchangeManager.IsPairAffordable | lib/exchange_manager.py:66-113 | a pair is affordable exactly when its symbol info came back without error, it is enabled (enabled when the field is missing) and its minimum order is at most a quarter of the balance |
| ExchangeManager.AffordableMonotone | lib/exchange_manager.py:95-103 | an affordable pair stays affordable with a larger balance |
| Scanner.ScanResultRanked | skills/silktrader-scanner/scripts/scanner.py:269-296 | the result is a leading part of the accepted opportunities sorted by score, highest first; it is ordered, has min(top_n, accepted) entries for a non-negative top_n and holds only accepted ones |
| Scanner.ScanResultScores | skills/silktrader-scanner/scripts/scanner.py:227-231 | every returned opportunity meets the minimum score |
| Scanner.ScanResultKeepsBest | skills/silktrader-scanner/scripts/scanner.py:269-296 | no accepted opportunity left out scores above one that is returned |
| ExchangeManager.AffordabilityExamples | tests/test_exchange_manager.py:135-164 | BTC_USDT at 70000 with a 29.04 balance is affordable; a pair with a minimum of 10 and a disabled pair are not; with no `enable` key a pair is enabled, with `enable: None` it is disabled, as `not info.get('enable', True)` decides |
| ExchangeManager.CalculateOrder | lib/exchange_manager.py:115-223 | a balance of zero or less refuses the order; an order is approved exactly when the symbol info is good and enabled, sizing succeeded, the size meets the exchange minimum and the risk validation approves, and it carries the sizing's amounts |
| ExchangeManager.ApprovedMeetsMinimum | lib/exchange_manager.py:177-185 | an approved order is on an enabled pair and at least the exchange minimum |
| ExchangeManager.CalculateOrderPrecedence | lib/exchange_manager.py:147-178 | a symbol error is reported before anything later, and a sizing ValueError before the exchange minimum and the risk validation |
| ExchangeManager.CheckMaxPositions | lib/exchange_manager.py:430-445 | another position may open exactly while the open count is below the maximum |
| ExchangeManager.CheckMaxPositionsExamples | tests/test_exchange_manager.py:306-314 | with a maximum of 3, two open positions allow another and three do not |
| ExchangeManager.Exchange.constructor | lib/exchange_manager.py:22-47 | a new manager has no trades and no P&L today |
| ExchangeManager.Exchange.ExecuteTrade | lib/exchange_manager.py:225-354 | an order is sent exactly when it is approved and the mode is live; the trade succeeds exactly when approved and either paper mode or the reply's `data` has an `orderId` key, whatever its value; a paper success returns the PAPER id, a live success returns the reply's id as given; a success carries no error, and a refused, failed or raising trade carries no id and an error, the refusal's own error, the exception's message or the reply's error with its "Unknown order error" default; only a successful live order counts toward today's trades |
| ExchangeManager.PaperOrderId | lib/exchange_manager.py:291 | the paper id starts with `PAPER-`, the pair and `-` |
| ExchangeManager.PaperIdFailsUnderscoreCheck | tests/test_exchange_manager.py:230 | for the pair BTC_USDT, `PAPER_` occurs in the paper id at no time, so the test's expectation is never met |
| ExchangeManager.PaperIdHyphenFormat | tests/test_database.py:92 | the paper id has the `PAPER-BTC_USDT-` form the database tests use |
| ExchangeManager.Exchange.ClosePosition | lib/exchange_manager.py:356-414 | a zero entry price fails; otherwise the P&L is the price move times the quantity, the percentage is relative to the entry, and the daily P&L grows by the P&L |
| ExchangeManager.Exchange.UpdateDailyPnl | lib/exchange_manager.py:492-499 | the daily P&L grows by the given amount and nothing else changes |
| ExchangeManager.Exchange.ResetDailyCounters | lib/exchange_manager.py:501-504 | the trade count and the daily P&L return to zero |
| PositionMonitor.Ratchet | monitor_positions.py:180-225 | an inactive trailing stop activates at the rule's stop exactly when the rule says so; an active one stays active and moves only to a strictly higher stop; no other field changes |
| PositionMonitor.ExitDecision | monitor_positions.py:242-253 | the stop exits at the stop price exactly when the price is at or below it; otherwise the target exits at the target price when reached; no exit strictly between them |
| PositionMonitor.ActiveStopNeverLowers | monitor_positions.py:206-225 | once active, the trailing stop stays active and never moves down |
| PositionMonitor.CheckChangesOnlyTrailing | monitor_positions.py:167-225 | a check changes only the trailing fields, and nothing when no price is available |
| PositionMonitor.SignalMeaning | monitor_positions.py:158-265 | the exit signal reports the stop or the target as the price demands, on the updated position, with the unrealised P&L in USDT and in percent of the entry |
| PositionMonitor.DurationParts | monitor_positions.py:148-149 | whole hours and remaining whole minutes (below 60) of the elapsed seconds |
| PositionMonitor.Duration | monitor_positions.py:135-156 | `calculate_duration`: None exactly when the opening time cannot be read; otherwise "Hh Mm" when at least one whole hour has passed and "Mm" otherwise, with the hours and minutes of DurationParts |
| PositionMonitor.DurationExamples | monitor_positions.py:135-156 | 8130 seconds is 2 h 15 min and reads "2h 15m"; 2700 seconds is 0 h 45 min and reads "45m"; an unreadable opening time gives None |
| PositionMonitor.RemoveIdDrops | monitor_positions.py:363 | the filtered list holds no position with the closed id |
| PositionMonitor.RemoveIdKeeps | monitor_positions.py:363 | every other position is kept as often as it occurred |
| PositionMonitor.RemoveIdAbsent | monitor_positions.py:363 | filtering an id nobody has leaves the list unchanged |
| PositionMonitor.AfterClosePreservesConsistency | monitor_positions.py:342-361 | wins plus losses count the closed trades and the total P&L is their sum, before and after a close |
| PositionMonitor.AfterCloseWinIffProfit | monitor_positions.py:343-347 | a close counts a win exactly when the P&L is positive and a loss otherwise (a zero P&L is a loss), and records one trade |
| PositionMonitor.CheckedAll | monitor_positions.py:378-381 | the checking loop updates each position by its own check and keeps the list's length |
| PositionMonitor.CloseAllPreservesConsistency | monitor_positions.py:383-385 | closing the exits in order keeps the statistics consistent with the closed trades |
| PositionMonitor.DryRunClosesEverySignal | monitor_positions.py:300-302 | in dry-run mode every exit signal produces one closed trade |
| PositionMonitor.SignalsNeedPrices | monitor_positions.py:167-171 | positions without a price give no exit signals |
| PositionMonitor.CheckStep | monitor_positions.py:378-381 | the loop's checked list and signal list grow by one position's check at a time |
| PositionMonitor.CheckedPrefixStep | monitor_positions.py:378-381 | updating position i in place extends the checked prefix by one |
| PositionMonitor.Monitor.constructor | monitor_positions.py:24-48 | a monitor starts with the stored positions and zero statistics, which are consistent |
| PositionMonitor.Monitor.AddPosition | monitor_positions.py:77-92 | the new position is appended with id pair_seconds, the trade id defaulting to that id and the opening time recorded; the statistics are unchanged |
| PositionMonitor.Monitor.CheckPosition | monitor_positions.py:158-265 | the position is replaced by its checked version and the returned signal is the one the exit rule gives; the statistics are unchanged |
| PositionMonitor.Monitor.ClosePosition | monitor_positions.py:267-367 | a failed live sell order changes nothing and reports failure; otherwise the P&L, win or loss, the closed trade and the removal of the position are applied |
| PositionMonitor.Monitor.CheckEach | monitor_positions.py:376-381 | every position is checked in order, and the signals are collected in position order |
| PositionMonitor.Monitor.CloseEach | monitor_positions.py:383-385 | the exits are closed in order, each with its own order reply |
| PositionMonitor.Monitor.CheckAllPositions | monitor_positions.py:369-388 | all positions are checked before any exit is closed; the final state closes the collected exits from the checked book |
| TraderBot.Examine | silktrader_bot.py:114-136 | a symbol is kept exactly when its candles arrived, there are at least 50, the indicators and the score are computed and the score meets the minimum; fewer than 50 candles are skipped without an error; every exception counts as an error |
| TraderBot.KeptOf | silktrader_bot.py:111-136 | the opportunity list holds at most one entry per symbol |
| TraderBot.ErrorsOf | silktrader_bot.py:133-136 | the error count is at most the number of symbols |
| TraderBot.KeptAreQualified | silktrader_bot.py:114-129 | every opportunity is a scanned symbol with at least 50 candles, a score at least the minimum and a non-zero price |
| TraderBot.QualifiedAreKept | silktrader_bot.py:114-129 | every symbol that qualifies is among the opportunities |
| TraderBot.ScanTopProperties | silktrader_bot.py:139-141 | the returned list is ordered by score, holds at most top_pairs_limit entries drawn from the opportunities, and all of them when there are no more than the limit |
| TraderBot.ScanStep | silktrader_bot.py:114-136 | scanning one more symbol extends the list and the error count by that symbol's outcome |
| TraderBot.ScanSymbol | silktrader_bot.py:115-136 | the loop body adds the symbol's candidate or error exactly as its outcome says |
| TraderBot.ScanAndAnalyze | silktrader_bot.py:100-147 | the scan returns the ranked, cut opportunity list and counts the symbols whose scan raised |
| TraderBot.EvaluateOpportunity | silktrader_bot.py:149-181 | a trade is proposed exactly for a BUY with confidence 7 or more; the model engine raising (a zero price) gives no decision |
| TraderBot.FailedCallNeverTrades | silktrader_bot.py:155-181 | a failed call to the model never leads to a trade |
| TraderBot.ParsedReplyTradeRule | silktrader_bot.py:178-181 | for a reply that arrived, the bot trades exactly when the parsed decision is a BUY with confidence at least 7 |
| TraderBot.AccountBalance | silktrader_bot.py:203-212 | paper mode sizes on a mock 1000; live mode on the free USDT balance, 1000 when it is missing or the call raises |
| TraderBot.PlanTrade | silktrader_bot.py:197-218 | the stop is 2 ATR below and the target 3 ATR above the price; the position is within the configured maximum, and its loss at the stop is at most 2% of the balance |
| TraderBot.ExecuteOutcome | silktrader_bot.py:183-290 | the daily gate blocks first; otherwise the planned size is rejected exactly when the risk validation refuses it, and executed exactly when approved and either paper mode or a filled order |
| TraderBot.ExecutedWithinLimits | silktrader_bot.py:183-290 | an executed trade is below the daily trade limit and the open-position cap, between 10 USDT and the maximum size, and risks at most 2% of the balance at the stop |
| TraderBot.Bot.constructor | silktrader_bot.py:24-37 | a bot starts with zero counters and the stored positions |
| TraderBot.Bot.SavePosition | silktrader_bot.py:74-98 | the position, stamped with the time and an id pair_seconds, is appended to the positions read from the file, and that list becomes the bot's |
| TraderBot.Bot.ExecuteTrade | silktrader_bot.py:183-290 | the trade succeeds exactly when the outcome is executed, and then the saved position carries the plan, the order id (none in paper mode) and the decision; a failed attempt keeps the positions; only a live success counts toward today's trades |
| TraderBot.Saved | silktrader_bot.py:236-272 | the saved position carries the pair, the indicators' price, the plan's quantity and levels, the order id (none in paper mode), the decision's confidence and reasoning, and the opening time |
| TraderBot.TradeStep | silktrader_bot.py:318-325 | one opportunity executes a trade exactly when the model says BUY with confidence at least 7 and `execute_trade` gets through gate, validation and order; otherwise nothing changes; a trade counts toward today only in live mode |
| TraderBot.CycleOutcome | silktrader_bot.py:317-325 | over the ranked list, at most one trade per opportunity; the trade counter grows by the executed trades in live mode only and never past the daily maximum (unless it already had); no trade means nothing changed |
| TraderBot.CycleStep | silktrader_bot.py:318-325 | one more opportunity extends the cycle by one step, and the longer cycle is still sized safely |
| TraderBot.SizedWhenReached | silktrader_bot.py:183-214 | a candidate needs a non-zero ATR only when the model proposes it and the daily gate is open, the one path on which `execute_trade` sizes it |
| TraderBot.SizableAt | silktrader_bot.py:316-324 | in a cycle sized safely, every opportunity is sized safely from the state the ones before it leave |
| TraderBot.SizablePrefix | silktrader_bot.py:316-324 | a cycle sized safely stays so when cut short |
| TraderBot.UnsizedCandidateIsOrdinary | silktrader_bot.py:187-195 | a candidate the model does not propose, or one reached with the daily gate closed, whatever its ATR, is an ordinary opportunity that changes nothing |
| TraderBot.AfterCycle | silktrader_bot.py:292-325 | a failed symbol fetch changes nothing; a cycle never lowers the trade counter, never takes it past the daily maximum (unless it already had) and leaves it alone in paper mode |
| TraderBot.Bot.TakeOpportunity | silktrader_bot.py:319-324 | the loop body equals TradeStep on the bot's positions and counter |
| TraderBot.Bot.RunCycle | silktrader_bot.py:292-337 | a failed scan changes nothing; otherwise the positions, the trade counter and the executed count are those of CycleOutcome over ScanTop from the old state; the counter never falls and never passes the daily maximum (unless it already had), does not move in paper mode and otherwise grows by the number of executed trades; the daily P&L never moves |
| TraderBot.Bot.RunContinuous | silktrader_bot.py:339-373 | the cycles run are exactly those of `RunTrace`: the loop stops after the first cycle that leaves the daily gate closed and not later, the bot ends in the state the last cycle run leaves, and it reports stopping exactly when that state closes the gate; in paper mode a bot allowed to trade at the start never stops by itself |
| TraderBot.RunTrace | silktrader_bot.py:351-364 | the states after the cycles `run_continuous` runs: every one but the last leaves the daily gate open, a run cut short of its cycles ends on a closed gate, and there is one state per cycle run and none without cycles |
| TraderBot.TraceAdvance | silktrader_bot.py:351-364 | one more cycle of the loop: the next state is the one that cycle leaves, and the run goes on with the later cycles only when the gate is still open |
| Ranking.FirstArgMax | analyze_overnight.py:149 | `max(..., key=...)` picks an element with the highest key, the first one among ties |
| Ranking.FirstArgMin | analyze_overnight.py:150 | `min(..., key=...)` picks an element with the lowest key, the first one among ties |
| OvernightAnalysis.PnlOrZero | analyze_overnight.py:138 | `pnl or 0` is non-zero exactly when the P&L is present and non-zero, and then equals it |
| OvernightAnalysis.WinCount | analyze_overnight.py:140-143 | the number of wins is at most the number of trades |
| OvernightAnalysis.ClosedSummary | analyze_overnight.py:76-162 | an empty window gives zeros and no best or worst trade; otherwise every row is listed, wins and losses add up to the rows, the total is the sum of the P&L (NULL as zero), the average and win rate are per row, and the best and worst trades are rows with the highest and lowest P&L |
| OvernightAnalysis.BestAndWorstAreFirst | analyze_overnight.py:149-150 | among trades with equal P&L the earliest row is reported as best or worst |
| OvernightAnalysis.NoWinsNoProfit | analyze_overnight.py:138-143 | a window without a winning trade made no profit |
| OvernightAnalysis.AllWinsProfit | analyze_overnight.py:138-143 | a non-empty window of winning trades only made a profit |
| OvernightAnalysis.ClosedStep | analyze_overnight.py:123-143 | one more row adds its P&L to the total and at most one win |
| OvernightAnalysis.AnalyzeClosedTrades | analyze_overnight.py:76-162 | the loop computes exactly the summary above |
| OvernightAnalysis.StatOf | analyze_overnight.py:185-207 | with a usable price (present and non-zero) the unrealised P&L is the price move times the quantity and the percentage is relative to the entry; without one both are zero; the trailing flag defaults to false |
| OvernightAnalysis.StatsOf | analyze_overnight.py:184-209 | one report line per position, in order |
| OvernightAnalysis.OpenSummary | analyze_overnight.py:164-220 | no positions gives zeros and no best or worst; otherwise every position is listed, the total is the sum of the unrealised P&L, and the best and worst positions have the highest and lowest unrealised P&L |
| OvernightAnalysis.NoPricesNoUnrealized | analyze_overnight.py:187-193 | without a usable price for any position the unrealised total is zero |
| OvernightAnalysis.OpenStep | analyze_overnight.py:184-209 | one more position adds its report line |
| OvernightAnalysis.PositionLine | analyze_overnight.py:185-207 | the loop body produces the position's report line |
| OvernightAnalysis.AnalyzeOpenPositions | analyze_overnight.py:164-220 | the loop computes exactly the summary above |
| OvernightAnalysis.OverallPnlIsSum | analyze_overnight.py:431-433 | the overall total is the closed trades' P&L plus the open positions' unrealised P&L |
| SyncPositions.OrDefault | scripts/sync_positions.py:41-42 | `v if v else fallback`: a present, non-zero value is kept; NULL and zero take the fallback |
| SyncPositions.Convert | scripts/sync_positions.py:40-53 | the position keeps the trade's id (as both id and trade id), pair, entry, quantity and entry time; its stop and target are the trade's own or 2% below and 3% above the entry |
| SyncPositions.DefaultLevelsBracketEntry | scripts/sync_positions.py:41-42 | a trade without levels and with a positive entry gets a stop below and a target above the entry |
| SyncPositions.ConvertAll | scripts/sync_positions.py:37-54 | one position per trade, in order |
| SyncPositions.FirstUndisplayable | scripts/sync_positions.py:56-65 | the first trade whose printed risk/reward raises (a zero entry, or a stop equal to the entry), with every earlier one printable |
| SyncPositions.FirstUndisplayableAt | scripts/sync_positions.py:38-65 | a trade that cannot be printed after printable ones is where the loop stops |
| SyncPositions.SyncResult | scripts/sync_positions.py:14-89 | nothing is written exactly when there are no open trades; the script aborts exactly when some trade cannot be printed; otherwise it writes one position per trade |
| SyncPositions.BreakEvenStopAbortsSync | scripts/sync_positions.py:63-65 | a single trade whose stop equals its entry aborts the sync and nothing is written |
| SyncPositions.IntendedSyncResult | scripts/sync_positions.py:14-79 | as intended: every open trade reaches the file, in order |
| SyncPositions.IntendedAgreesWhenDisplayable | scripts/sync_positions.py:14-79 | the script as written and as intended agree when every summary can be printed |
| SyncPositions.IntendedSyncShape | scripts/sync_positions.py:37-70 | the intended sync writes one position per trade, keyed by the trade id and at the trade's entry |
| SyncPositions.ConvertStep | scripts/sync_positions.py:38-54 | one more trade adds its position |
| SyncPositions.ConvertTrade | scripts/sync_positions.py:40-53 | the loop body builds the trade's position with the fallback levels |
| SyncPositions.Sync | scripts/sync_positions.py:14-89 | the loop computes exactly the outcome above |
| BacktestModel.SlippageFactor | lib/backtest_engine.py:163-166 | a buy pays the slippage on top of the price, a sell gives it up |
| BacktestModel.TradingCosts | lib/backtest_engine.py:150-180 | the executed price is the slipped price; a buy costs the value plus the fee, a sell brings in the value less the fee |
| BacktestModel.TradingCostsAgainstTrader | lib/backtest_engine.py:162-178 | both slippage and fees work against the trader: a buy never costs less and a sale never brings in more than the value at the quoted price |
| BacktestModel.SaleProceedsPositive | lib/backtest_engine.py:168-178 | a sale of a positive quantity at a positive price brings in cash |
| BacktestModel.PositionUsdt | lib/backtest_engine.py:132-143 | the quote amount is 20%, 15% or 10% of the balance by tier, capped at the maximum position size; never more than a fifth of a non-negative balance, positive for a positive balance |
| BacktestModel.PositionQuantity | lib/backtest_engine.py:119-148 | the quantity is the quote amount at the entry price, whatever the stop |
| BacktestModel.PositionUsdtTiers | lib/backtest_engine.py:132-143 | balances of 40, 100, 1000 and 10000 with a cap of 500 size 8, 15, 100 and 500 |
| BacktestModel.Candidate | lib/backtest_engine.py:205-235 | the stop and target are percentages of the quoted price; the stored entry is the slipped price and the cost the buy total; the trailing stop starts at the stop, inactive, with the entry as high-water mark |
| BacktestModel.CandidateSane | lib/backtest_engine.py:205-235 | a position opened from a positive balance has positive levels, a stop below the entry, and costs less than the balance |
| BacktestModel.BuyCostBelowBalance | lib/backtest_engine.py:141-178 | a fifth of the balance grossed up by slippage and fee (each below 100%) stays below the balance |
| BacktestModel.StopAndTargetAroundRaw | lib/backtest_engine.py:206-207 | the stop lies between zero and the quoted price, which is at most the slipped entry; the target is positive |
| BacktestModel.Ratchet | lib/backtest_engine.py:315-339 | the high-water mark follows the price up; the trailing stop activates at 3% above the entry, 1.5% below the high-water mark; once active it only moves up; nothing else changes |
| BacktestModel.RatchetMonotone | lib/backtest_engine.py:315-339 | the update never lowers the high-water mark or the stop and never deactivates the trailing stop |
| BacktestModel.RatchetExample | lib/backtest_engine.py:315-339 | entry 100: a price of 104 activates the stop at 102.44, a later 103 leaves it there, and 102 does not activate it |
| BacktestModel.ExitFor | lib/backtest_engine.py:358-367 | a candle exits exactly when its low reaches the stop or its high the target; the stop is tested first and fills at the stop, as a trailing stop once active; the target fills at the target |
| BacktestModel.StopBeatsTarget | lib/backtest_engine.py:358-367 | a candle spanning both levels closes at the stop |
| BacktestModel.ExitPricePositive | lib/backtest_engine.py:358-367 | a sane position exits at a positive price |
| BacktestModel.TimeframeToMs | lib/backtest_engine.py:561-573 | an unknown unit letter gives the 15-minute default; with a known unit the result exists exactly when the number parses; an empty string raises |
| BacktestModel.TimeframeOfCount | lib/backtest_engine.py:569-571 | a count written before a unit letter reads back as that many units |
| BacktestModel.TimeframeFifteenMinutes | lib/backtest_engine.py:561-573 | "15M" is 900000 ms |
| BacktestModel.TimeframeFourHours | lib/backtest_engine.py:561-573 | "4H" is 14400000 ms |
| BacktestModel.TimeframeOneDay | lib/backtest_engine.py:561-573 | "1D" is 86400000 ms |
| BacktestModel.TimeframeLowerCaseUnit | lib/backtest_engine.py:569-573 | "4h" falls back to 15 minutes, since unit letters are case-sensitive |
| BacktestModel.TimeframeStepNotPositive | lib/backtest_engine.py:561-573 | as written, "0M" gives a step of 0 ms and "-5M" one of -300000 ms |
| BacktestModel.TimeframeStep | lib/backtest_engine.py:470 | the step of the time loop exists only when the timeframe gives a positive length, and then it is that length |
| BacktestModel.TimeframeStepOfCount | lib/backtest_engine.py:569-571 | a count before a known unit letter gives a step exactly when it is positive, and then that many units |
| BacktestAccount.Fresh | lib/backtest_engine.py:49-72 | a new engine holds the starting balance as balance and peak, with no positions, trades, daily lists, P&L or drawdown |
| BacktestAccount.Wins | lib/backtest_engine.py:291-292 | the winning trades are at most all trades |
| BacktestAccount.RemoveAt | lib/backtest_engine.py:311 | `positions.remove(position)` drops exactly that element and keeps the others in order |
| BacktestAccount.FreshInv | lib/backtest_engine.py:49-72 | a new engine satisfies the bookkeeping invariant: cash equals the starting balance plus realised P&L less the cost of open positions, counters agree with the closed trades, one position per pair within the cap |
| BacktestAccount.SumValuesAppend | lib/backtest_engine.py:237-238 | the cost of open positions adds up over concatenation |
| BacktestAccount.SumValuesRemove | lib/backtest_engine.py:311 | removing a position removes exactly its cost from the total held |
| BacktestAccount.SumValuesPointwise | lib/backtest_engine.py:315-339 | updating trailing stops does not change what the positions cost |
| BacktestAccount.TradeAppended | lib/backtest_engine.py:288-295 | recording a trade adds its P&L to the total and at most one win |
| BacktestAccount.OpenDecision | lib/backtest_engine.py:182-241 | the position is refused exactly when the cap is reached, the pair is already held or the cost exceeds the balance; otherwise it is the candidate position |
| BacktestAccount.Opened | lib/backtest_engine.py:236-238 | opening takes the cost from the balance and appends the position |
| BacktestAccount.OpenPreservesInv | lib/backtest_engine.py:182-241 | opening keeps the bookkeeping invariant: cap, one position per pair, positive balance and the cash identity |
| BacktestAccount.CloseTrade | lib/backtest_engine.py:256-286 | the exit is costed as a sell; the P&L is the proceeds less the position's cost; the percentage is relative to that cost; the hold time is in hours |
| BacktestAccount.ClosedAt | lib/backtest_engine.py:243-313 | closing adds the proceeds to the balance, records the trade in the list and under its exit day, removes the position, raises the peak on a new high and otherwise the maximum drawdown to the drawdown from the peak |
| BacktestAccount.DrawdownInUnit | lib/backtest_engine.py:305-307 | the drawdown from a peak to a positive balance lies in [0, 1) |
| BacktestAccount.ClosePreservesInv | lib/backtest_engine.py:243-313 | closing at a positive price keeps the bookkeeping invariant; a zero P&L counts as a loss |
| BacktestAccount.RemoveAtKeepsPositionsOk | lib/backtest_engine.py:311 | removing a position keeps the others sane and their pairs distinct |
| BacktestAccount.ClosedAtPairs | lib/backtest_engine.py:311 | closing adds no pair |
| BacktestAccount.Ratcheted | lib/backtest_engine.py:353-355 | every position's trailing stop is updated by the candle's close |
| BacktestAccount.RatchetedKeepsInv | lib/backtest_engine.py:353-355 | updating the trailing stops keeps the invariant and the pairs held |
| BacktestAccount.ExitsOf | lib/backtest_engine.py:351-367 | at most one exit per position, only for pairs held, at positive prices for sane positions |
| BacktestAccount.PairIndex | lib/backtest_engine.py:311 | finds the position of a pair, or reports that the pair is not held |
| BacktestAccount.CloseOne | lib/backtest_engine.py:369-373 | closing one exit keeps the invariant, adds no pair and only appends to the closed trades |
| BacktestAccount.ClosePairs | lib/backtest_engine.py:369-373 | closing the exits in order keeps the invariant, adds no pair and only appends to the closed trades |
| BacktestAccount.ClosePairsStep | lib/backtest_engine.py:369-373 | closing one more exit extends the fold by one step |
| BacktestAccount.AfterExits | lib/backtest_engine.py:341-375 | a candle updates every trailing stop, then closes the triggered positions; the invariant holds, no pair is added and earlier trades are kept |
| BacktestAccount.SumWins | lib/backtest_engine.py:583-592 | the total of the winning P&Ls is not negative, and zero without a win |
| BacktestAccount.LossCount | lib/backtest_engine.py:585 | the trades with a negative P&L are at most all trades |
| BacktestAccount.SumLosses | lib/backtest_engine.py:585-593 | the total of the losing P&Ls is not positive, and zero without a loss |
| BacktestAccount.PercentOfBase | lib/backtest_engine.py:596 | the percentage times the base is the gain times 100 |
| BacktestAccount.AverageOrZero | lib/backtest_engine.py:580-587 | zero for an empty count, otherwise the average, with the sign of the total |
| BacktestAccount.ProfitFactor | lib/backtest_engine.py:590-593 | the profit factor is not negative; with losses it times the absolute losses is the total of wins; without losses it is zero |
| BacktestAccount.BestTrade | lib/backtest_engine.py:602 | the best trade exists exactly when a trade does, and has the highest P&L |
| BacktestAccount.WorstTrade | lib/backtest_engine.py:603 | the worst trade exists exactly when a trade does, and has the lowest P&L |
| BacktestAccount.WinRate | lib/backtest_engine.py:578 | the win rate lies in [0, 100], zero without trades, otherwise the winning share in percent |
| BacktestAccount.CalculateMetrics | lib/backtest_engine.py:575-624 | trade counts add up; win rate and drawdown are percentages; every average is guarded against an empty count; the average win is not negative, the average loss not positive; best and worst trades are the extremes by P&L |
| BacktestAccount.OutcomesPartition | lib/backtest_engine.py:584-585 | every trade is a win, a loss or breaks even |
| BacktestAccount.BreakEvenIsALossButNotAveraged | lib/backtest_engine.py:292-295 | the losing count is the negative trades plus the break-even ones, while the average loss only covers the negative ones |
| BacktestAccount.RoiOnStartingBalance | lib/backtest_engine.py:596 | the return is the balance change relative to the starting balance, in percent |
| BacktestAccount.RoiIsRealisedPnl | lib/backtest_engine.py:596 | with no position open, the return is the realised P&L relative to the starting balance |
| BacktestEngine.LoadData | lib/backtest_engine.py:430-446 | a pair is kept, once and in first-seen order, exactly with its fetched candles when there are at least 100 of them |
| BacktestEngine.LoadDataStep | lib/backtest_engine.py:435-446 | one more pair extends the table by that pair's outcome |
| BacktestEngine.LoadDataKeepsLongPairs | lib/backtest_engine.py:441-442 | every requested pair with at least 100 candles is loaded |
| BacktestEngine.Earliest | lib/backtest_engine.py:464 | the start of the common window is at or after every pair's first candle |
| BacktestEngine.Latest | lib/backtest_engine.py:465 | the end of the common window is at or before every pair's last candle |
| BacktestEngine.UpTo | lib/backtest_engine.py:495 | the candles up to a time are drawn from the pair's candles and none is later |
| BacktestEngine.UpToMonotone | lib/backtest_engine.py:495 | a later cut-off never has fewer candles |
| BacktestEngine.At | lib/backtest_engine.py:529 | the candles at a time all carry that timestamp and come from the pair's candles |
| BacktestEngine.ScanForOpportunities | lib/backtest_engine.py:377-404 | an opportunity exactly when there are at least 50 candles, the indicators and the score can be computed, and the score reaches the minimum; it carries those indicators and a score up to 7 |
| BacktestEngine.Engine.constructor | lib/backtest_engine.py:24-73 | the fee and slippage percentages are stored divided by 100, and the account starts fresh and satisfies the bookkeeping invariant |
| BacktestEngine.Engine.OpenPosition | lib/backtest_engine.py:182-241 | the position opened (or the refusal) is the open decision, the new state is the opened account, and the bookkeeping invariant holds |
| BacktestEngine.Engine.ClosePosition | lib/backtest_engine.py:243-313 | the trade is the costed close and the new state is the closed account |
| BacktestEngine.Engine.Record | lib/backtest_engine.py:266-311 | the balance, the counters, the day's list, the peak or drawdown and the position list change as a close records them |
| BacktestEngine.Engine.CountTrade | lib/backtest_engine.py:289-295 | one more trade, its P&L added, a win when it gains and a loss otherwise |
| BacktestEngine.Engine.AddToDay | lib/backtest_engine.py:298-301 | the trade is appended to its exit day's list, created on the day's first trade |
| BacktestEngine.Engine.UpdatePeak | lib/backtest_engine.py:304-308 | a new high raises the peak; otherwise the drawdown from the peak may raise the maximum drawdown |
| BacktestEngine.Engine.UpdateTrailingStop | lib/backtest_engine.py:315-339 | the position is replaced by its ratcheted version and nothing else changes |
| BacktestEngine.Engine.RatchetAll | lib/backtest_engine.py:350-362 | every position is ratcheted by the candle's close, and the exits the candle triggers are collected in position order |
| BacktestEngine.Engine.CloseExit | lib/backtest_engine.py:369-373 | closing one exit is the account fold step and keeps the invariant; the trades closed are appended |
| BacktestEngine.Engine.CheckExits | lib/backtest_engine.py:341-375 | the new state is the candle's exit result; the invariant holds and the trades it closes are appended in order |
| BacktestEngine.Engine.LoadPairs | lib/backtest_engine.py:435-446 | the loading loop builds exactly the loaded table |
| BacktestEngine.Engine.ScanPair | lib/backtest_engine.py:493-519 | the new account is the one-pair scan `ScanPairAccount` of the old one, and the invariant holds |
| BacktestEngine.Engine.ScanAll | lib/backtest_engine.py:493-519 | the new account is the scan fold `ScanAccount` over every loaded pair in loading order, and the invariant holds |
| BacktestEngine.Engine.ExitAll | lib/backtest_engine.py:523-539 | the new account is the exit-pass fold `ExitPass` over every loaded pair, and the invariant holds |
| BacktestEngine.Engine.CloseAtEnd | lib/backtest_engine.py:546-551 | the new account is the drain step `DrainStepAccount`, and the trade returned is the first position's close at its pair's last close up to the end of the window, with reason BacktestEnd at the end time |
| BacktestEngine.Engine.Drain | lib/backtest_engine.py:545-553 | the new account is the drain fold `DrainAccount` of the old one, nothing is left open, and the trades returned are exactly the ones appended |
| BacktestEngine.Engine.Replay | lib/backtest_engine.py:473-542 | the new account and the scan count are those of `ReplayFrom` from the window's start with the scan clock at the start; the invariant holds |
| BacktestEngine.Engine.RunBacktest | lib/backtest_engine.py:406-559 | the result is absent exactly when `RunAccount` is (no pair with enough data), and then nothing changes; otherwise the new account is `RunAccount`'s and the result is its metrics with `RunAccount`'s scan count |
| BacktestEngine.Engine.RunTick | lib/backtest_engine.py:483-539 | the new account is one `Tick`: the scan fold when due, then the exit pass; the invariant holds |
| BacktestEngine.Engine.ReplayTick | lib/backtest_engine.py:482-542 | a scan is due exactly when the interval has passed since the last scan; the time loop from the old account equals this tick followed by the loop from the next timeframe, counting one scan when due |
| BacktestEngine.ScanPairAccount | lib/backtest_engine.py:493-519 | a pair with fewer than 100 candles up to now, no opportunity or a refused entry leaves the account as it is; otherwise exactly one position of this pair, entered now, is appended and paid from the balance; the invariant holds |
| BacktestEngine.ScanAccount | lib/backtest_engine.py:493-519 | a scan closes no trade, only appends positions, and every pair it adds has at least 100 candles up to now; the invariant holds |
| BacktestEngine.ExitPass | lib/backtest_engine.py:523-539 | the exit pass adds no pair, only appends to the closed trades, and keeps the invariant |
| BacktestEngine.Tick | lib/backtest_engine.py:483-539 | one tick keeps the invariant, keeps a price at the window's end for every pair held, and only appends trades |
| BacktestEngine.ReplayFrom | lib/backtest_engine.py:482-542 | past the end of the window the loop changes nothing and counts no scan |
| BacktestEngine.ReplayStep | lib/backtest_engine.py:482-542 | the loop is one tick, scanning when `current >= last_scan + interval`, then the loop from the next timeframe with the scan clock moved to now when it scanned |
| BacktestEngine.ReplayKeepsInv | lib/backtest_engine.py:482-542 | the whole time loop keeps the invariant, keeps every held pair priced at the window's end, and only appends trades |
| BacktestEngine.ExitPassWithoutPositions | lib/backtest_engine.py:523-526 | with no position open the exit pass changes nothing |
| BacktestEngine.NoScanWithinInterval | lib/backtest_engine.py:482-521 | an empty account replayed over ticks that all fall before one interval after the last scan scans nothing and stays as it is |
| BacktestEngine.ScanDueWithoutInterval | lib/backtest_engine.py:484 | with a zero or negative interval the first tick already scans |
| BacktestEngine.OneInstantWindowScans | lib/backtest_engine.py:482-487 | in a window of one instant the single tick scans, and so divides by the window's zero length, exactly when the scan interval is not positive |
| BacktestEngine.ScanKeepsCovered | lib/backtest_engine.py:495-498 | a scan at a tick within the window only adds pairs that have a price at the window's end |
| BacktestEngine.FinalPrice | lib/backtest_engine.py:547-549 | the closing price at the end is the close of one of the pair's candles at or before the window's end, positive for positive closes |
| BacktestEngine.DrainAccount | lib/backtest_engine.py:545-553 | the drain leaves no position open, appends one trade per position and keeps the invariant |
| BacktestEngine.DrainStepAccount | lib/backtest_engine.py:546-551 | one drain step removes the first position and appends its close at the final price with reason BacktestEnd at the window's end |
| BacktestEngine.DrainTrades | lib/backtest_engine.py:545-553 | after the drain the balance is the starting balance plus all realised P&L, and the k-th position open before it gave the k-th new trade, closed at its pair's final price with reason BacktestEnd |
| BacktestEngine.DrainStep | lib/backtest_engine.py:545-553 | the trades of the drain are the first position's close followed by the rest's |
| BacktestEngine.RunAccount | lib/backtest_engine.py:430-556 | for a run whose progress line does not divide by zero (`ProgressDefined`): no result exactly when no pair has at least 100 candles; otherwise the account after the time loop over the common window and the drain: nothing open, the invariant holds, earlier trades kept |
| BacktestEngine.RunDrainsEverything | lib/backtest_engine.py:545-553 | after a run no position is open and the balance is the starting balance plus the P&L of every trade |
| BacktestEngine.ShortWindowTradesNothing | lib/backtest_engine.py:464-486 | a common window shorter than one scan interval leaves a fresh engine with no trade and no scan |
| BacktestEngine.PairsOfAppend | lib/backtest_engine.py:237-238 | appending a position adds exactly its pair |
| BacktestEngine.CoveredShrinks | lib/backtest_engine.py:546-551 | removing positions keeps every remaining pair priced at the end |
| BacktestPairExits.RatchetedIn | lib/backtest_engine.py:524-535 | as intended, a pair's candle ratchets only the positions held in that pair |
| BacktestPairExits.RatchetedInKeepsInv | lib/backtest_engine.py:524-535 | the pair-restricted ratchet keeps the bookkeeping invariant |
| BacktestPairExits.ExitsIn | lib/backtest_engine.py:524-535 | as intended, a pair's candle triggers exits only for that pair |
| BacktestPairExits.AfterPairExits | lib/backtest_engine.py:524-535 | the exit pass as intended keeps the invariant and leaves every position of another pair open |
| BacktestPairExits.ClosePairsKeepsOthers | lib/backtest_engine.py:369-373 | closing exits of one pair keeps every position of another pair |
| BacktestPairExits.ExitsInAll | lib/backtest_engine.py:351-367 | when every position is in the candle's pair, the restricted exits are all the exits |
| BacktestPairExits.AgreeWhenOnlyThatPair | lib/backtest_engine.py:524-535 | when every open position is in the candle's pair, the pass as written and as intended agree |
| BacktestPairExits.RatchetBelowEntry | lib/backtest_engine.py:315-339 | below the entry, an inactive position's ratchet changes nothing |
| BacktestPairExits.OnlyPositionStops | lib/backtest_engine.py:356-360 | a candle reaching an inactive position's stop exits it at the stop |
| BacktestPairExits.ClosingOnlyPosition | lib/backtest_engine.py:369-373 | an exit for the only open position's pair closes it |
| BacktestPairExits.ForeignCandleClosesPosition | lib/backtest_engine.py:341-375 | as written, `check_exits` given a candle of another pair whose low reaches a position's stop (the close below the entry, the stop inactive) closes that position |
| BacktestPairExits.ForeignCandleKeepsPosition | lib/backtest_engine.py:341-375 | as intended, the check for another pair's candle leaves the position untouched |
| BacktestPairExits.IntendedExitPass | lib/backtest_engine.py:523-539 | the exit pass as intended, each held pair's candle running the pair-restricted check, keeps the invariant |
| BacktestPairExits.QuietCandleNoExit | lib/backtest_engine.py:315-367 | a candle below an inactive position's entry that reaches neither its stop nor its target leaves it unchanged and triggers no exit |
| BacktestPairExits.TwoPositionsForeignStop | lib/backtest_engine.py:341-375 | as written, with two positions, a candle quiet for the first that reaches the inactive second's stop closes the second at its stop |
| BacktestPairExits.ForeignCandleInExitPass | lib/backtest_engine.py:523-539 | as written, in one tick's exit pass over two held pairs, the first pair's candle closes the second pair's position at its stop with a StopLoss trade, whatever the second pair's own candle |
| BacktestPairExits.PairQuietKeeps | lib/backtest_engine.py:523-539 | as intended, a pair's check on a candle quiet for its position changes nothing |
| BacktestPairExits.ForeignCandleInIntendedPass | lib/backtest_engine.py:523-539 | as intended, the same tick keeps both positions when the second pair's own candle is absent or quiet |
| Text.TrimLeft | lib/llm_decision.py:130 | the leading whitespace, and only it, is removed |
| Text.Strip | lib/llm_decision.py:130 | `str.strip()`: the input is the result with only whitespace before and after it, and the result neither starts nor ends with whitespace |
| Text.SplitOn | lib/llm_decision.py:130 | `str.split('\n')` gives at least one piece, none containing the separator, and joining the pieces with the separator gives back the input |
| Text.FirstToken | lib/llm_decision.py:145 | `split()[0]` is absent (Python raises) exactly for a blank string; otherwise it is a non-empty run of non-whitespace that follows only whitespace and ends at whitespace or at the end of the string |
| Text.Upper | lib/llm_decision.py:139 | `str.upper()` as one character to one: the ASCII letters, and ı and ſ to I and S. Python expands a few characters to several ASCII letters (ß to SS, ﬁ to FI, ﬀ to FF, ﬂ to FL, ﬅ to ST); none of those letter pairs occurs in BUY, SELL or WAIT, so the action test decides alike |
| Text.ParseIntOfNegative | lib/llm_decision.py:145 | `int()` reads a minus sign and digits as the negative number |
| LlmDecision.ApplyLinesStep | lib/llm_decision.py:137-151 | reading one more line applies it to the decision built so far |
| Scanner.ReasonTexts | skills/silktrader-scanner/scripts/scanner.py:146 | one text per reason, in order |
| Scanner.AboveAverageVolumeText | skills/silktrader-scanner/scripts/scanner.py:137-138 | a volume ratio of 2.0 is quoted as "Above-avg volume +100%" |
| Scanner.ScanStep | skills/silktrader-scanner/scripts/scanner.py:191-253 | scanning one more pair adds its outcome to the counters and, when accepted, to the list |
| Ranking.SortDesc | skills/silktrader-scanner/scripts/scanner.py:270 | the sort keeps the length |
| PositionMonitor.SignalsOf | monitor_positions.py:377-381 | at most one exit signal per position |
| PositionMonitor.RemoveId | monitor_positions.py:363 | the filtered list is no longer than the original |

## Left out

- Network, database, Telegram and file I/O are not modelled. This covers the Pionex REST client, SQLite queries, the positions file, notifications, logging and every `print`. Their results are inputs, and their writes have no modelled effect.
- The indicator computation (`calc_all_indicators`, pandas and TA-Lib) is not modelled. Indicator records are inputs.
- The HTTP call to the language model is not modelled. Its reply, or the failure of the call, is an input.
- Clocks and calendars are inputs. This covers `datetime.now`, `time.time` ids, ISO timestamps, the backtest's date key for daily trades (`isoDate`), and the monitor's and bot's "now".
- `time.sleep`, retries, and the fallback kline fetch of the backtest are not modelled. The backtest start and end dates are not modelled either; the loaded candles are given by `fetch`.
- Floating-point rounding is not modelled. Prices and amounts are exact reals, and number formatting is modelled only where the value decides a branch.
- `int()` accepting non-ASCII Unicode digits is not modelled. `Text.ParseInt` accepts ASCII digits, with single underscores between digits as Python allows, an optional sign and surrounding whitespace.
- Python dictionaries that are shared and mutated through several references are modelled as values. Positions are records updated in a sequence field, so aliasing between the bot's, monitor's and engine's dicts is not captured.
- Dictionary keys modelled with `Option` do not tell an absent key from one holding `None`. The `enable` flag of symbol info does (`Entry`), because a `None` there disables the pair. The `error` of an order reply is `Some` whenever the key is present, a `None` value included, because only the key's presence is tested. The order id of an order reply does too (`Entry`): the presence of the `orderId` key decides success and the trade count, so a reply whose `orderId` holds `None` succeeds and returns that `None`. The `minAmount` and `minTradeSize` of symbol info are a number or absent: a `None` there, on which Python's arithmetic raises and the handler refuses the order, is not modelled.
- Scanner opportunities omit the `confidence` alias of the score, the `affordable` flag (always True in a returned opportunity) and the timestamp. The filter statistics are modelled.
- The risk-manager signatures that callers use but that `risk_manager.py` does not define are inputs. These are `calculate_position_size_tiered`, the 8-argument `validate_trade`, the 5-argument `calculate_trailing_stop` and `clear_position_tracking`.
- Formatting helpers and reports are not modelled: `format_indicators_for_llm`, the prompt builder, `format_opportunity`, and the printed summaries of the scanner, the monitor, the overnight report and the backtest.
- The scanner-performance section of the overnight report and its other printed sections are not modelled. Only the closed-trade, open-position and overall totals are modelled.
- Command-line entry points, argument parsing and the live-trading confirmation prompt are not modelled.
- `daily_pnl` in the bot is initialised to 0 and never updated by the bot itself. The model keeps that behaviour.
- BacktestEngine.Engine.constructor: requires a sane configuration: a positive initial balance, fee and slippage in [0, 1), a positive maximum size, a stop percentage in [0, 100) and a non-negative take-profit percentage. The source does not check these.
- BacktestEngine.Engine.RunBacktest: requires an engine with no open position, a timeframe that parses to a positive length (`TimeframeStep`; see Findings), positive closes and positive indicator prices.
- BacktestEngine.ReplayFrom: its own contract states only the end of the loop. The invariant, the held pairs' prices and the trade prefix are in `ReplayKeepsInv`, and one turn of the loop is in `ReplayStep`.
- BacktestAccount.RoiIsRealisedPnl: states the return through `PercentOfBase` (the value whose product with the base is 100 times the amount) rather than as a quotient.
- RiskManager.PositionSize: requires a non-zero entry different from the stop, where Python would raise `ZeroDivisionError`.
- RiskManager.TrailingStop: requires a non-zero entry, where Python would raise `ZeroDivisionError`.
- A zero price in `score_setup`, or a zero price or slow EMA in `score_opportunity`, raises in Python. The model returns `None` for it, and the scanner counts that pair under the per-pair error handler, as the source does.
- PositionMonitor.Monitor.CheckPosition: requires a non-zero entry when a price is available, because the unrealised P&L divides by it. PositionMonitor.Monitor.CheckEach, PositionMonitor.Monitor.CheckAllPositions and PositionMonitor.SignalsOf carry the same requirement (`PricesUsable`).
- TraderBot.Bot.RunCycle: requires a non-zero ATR of each ranked candidate that reaches `execute_trade`'s sizing, that is one the model proposes while the daily gate is open, in the state the earlier candidates leave (`CycleSizable`). There `calculate_position_size` divides by the stop distance and Python raises `ZeroDivisionError`. A flat candidate that is never sized is allowed. TraderBot.TradeStep, TraderBot.CycleOutcome and TraderBot.Bot.TakeOpportunity carry the same requirement.
- TraderBot.Bot.RunContinuous: requires the same of every cycle the loop reaches, each from the state the cycles before it leave (`SizableRun`).
- BacktestEngine.Engine.RunBacktest: also requires that the progress line at lib/backtest_engine.py:487 does not divide by zero (`ProgressDefined`): the scan interval is positive, or the common window is longer than one instant. Otherwise the first tick scans with `latest_time - earliest_time` equal to 0, and `run_backtest`, which has no handler for it, raises `ZeroDivisionError`. BacktestEngine.RunAccount and BacktestEngine.RunDrainsEverything carry the same requirement; `OneInstantWindowScans` shows when the division is reached.
- OvernightAnalysis.StatOf: requires a non-zero entry for a position with a usable price, where analyze_overnight.py:189 divides by the entry and Python raises `ZeroDivisionError`. OvernightAnalysis.StatsOf, OvernightAnalysis.OpenSummary, OvernightAnalysis.PositionLine and OvernightAnalysis.AnalyzeOpenPositions carry the same requirement.

## Findings

| source | as written | input that shows it | evidently intended | confidence | as-written member | corrected member |
|---|---|---|---|---|---|---|
| scripts/sync_positions.py:63-65 | the risk/reward summary divides the reward by the risk, so a trade whose stop equals its entry raises `ZeroDivisionError`; the handler exits before anything is written | one open trade T1 on BTC_USDT with entry 100, stop 100 and take-profit 110: no position is written for any trade | every open trade is converted and written; the printed ratio does not decide the result | not executed | SyncPositions.BreakEvenStopAbortsSync | SyncPositions.IntendedSyncResult |
| lib/backtest_engine.py:523-535 | the exit pass calls `check_exits` with one held pair's candle, and `check_exits` applies it to every open position, so it ratchets and closes positions of other pairs | two open positions on pairs A and B, loaded in that order, neither trailing; at one tick A's candle closes below both entries, its low is above A's stop and at or below B's stop, and its high is below A's target: B's position is closed at its stop with a StopLoss trade, whatever B's own candle at that tick | a pair's candle moves and closes only the positions held in that pair: with B's own candle absent or quiet, both positions stay open | not executed | BacktestPairExits.ForeignCandleInExitPass | BacktestPairExits.ForeignCandleInIntendedPass |
| lib/backtest_engine.py:561-573 | `_timeframe_to_ms` accepts a count of zero or a negative count, so the step of the time loop at line 542 is zero or negative and `while current_time <= latest_time` (line 482) never ends | timeframe "0M" gives a step of 0 ms, and "-5M" one of -300000 ms | a run needs a step that moves the clock forward; the model only runs with `TimeframeStep`, which exists exactly for a positive length | not executed | BacktestModel.TimeframeStepNotPositive | BacktestModel.TimeframeStepOfCount |
| tests/test_exchange_manager.py:230 | the paper-trade test expects `PAPER_` in the order id, but lib/exchange_manager.py:291 builds the id with hyphens | a paper trade of BTC_USDT at any time: the id is `PAPER-BTC_USDT-` followed by the time, which contains no `PAPER_` | the hyphenated id, which the database tests at tests/test_database.py:92 also use; the test's expectation is the slip | not executed | ExchangeManager.PaperIdFailsUnderscoreCheck | ExchangeManager.PaperIdHyphenFormat |

The engine itself keeps the pass as written (`AfterExits`). The intended pass is `BacktestPairExits.AfterPairExits`. It preserves the account invariant, and `AgreeWhenOnlyThatPair` proves that the two agree whenever every open position is in the candle's pair.

The time loop runs only with the step `TimeframeStep` gives: `RunReady`, the precondition of `RunBacktest`, asks for it, so the model's loop always moves its clock forward.
