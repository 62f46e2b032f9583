/** The backtest engine itself: an object holding the account, whose methods
    open, close and ratchet positions in place, check a candle's exits, and
    replay the loaded candles tick by tick.  Fetching candles and computing
    indicators are inputs (`fetch`, `analyze`); the calendar date of a
    timestamp is the `isoDate` the engine is built with. */
module BacktestEngine {
  import opened Basics
  import opened Indicators
  import opened BacktestModel
  import opened BacktestAccount

  // ---------------------------------------------------------------------
  // Loaded data and candle selection
  // ---------------------------------------------------------------------

  /** The candles kept for the run: the pairs in insertion order and each
      pair's candles (a Python dict). */
  datatype PairTable = PairTable(order: seq<string>, klines: map<string, seq<Candle>>)

  /** The loading loop: a pair is kept, once, when it has at least 100
      candles. */
  function LoadData(pairs: seq<string>, fetch: string -> seq<Candle>): (t: PairTable)
    ensures forall p :: p in t.klines ==> t.klines[p] == fetch(p) && |fetch(p)| >= 100 && p in pairs
    ensures forall p :: p in t.klines <==> p in t.order
    ensures t.order == [] <==> t.klines == map[]
  {
    if pairs == [] then PairTable([], map[])
    else
      var t := LoadData(pairs[..|pairs| - 1], fetch);
      var pair := pairs[|pairs| - 1];
      var klines := fetch(pair);
      if |klines| >= 100 then PairTable(if pair in t.klines then t.order else t.order + [pair], t.klines[pair := klines])
      else t
  }

  lemma LoadDataStep(pairs: seq<string>, fetch: string -> seq<Candle>, i: nat)
    requires i < |pairs|
    ensures var t := LoadData(pairs[..i], fetch);
            LoadData(pairs[..i + 1], fetch)
            == if |fetch(pairs[i])| >= 100
               then PairTable(if pairs[i] in t.klines then t.order else t.order + [pairs[i]],
                              t.klines[pairs[i] := fetch(pairs[i])])
               else t
  {
    assert pairs[..i + 1][..i] == pairs[..i];
  }

  /** Every requested pair with at least 100 candles is loaded. */
  lemma {:induction false} LoadDataKeepsLongPairs(pairs: seq<string>, fetch: string -> seq<Candle>)
    ensures forall p :: p in pairs && |fetch(p)| >= 100 ==> p in LoadData(pairs, fetch).klines
  {
    if pairs != [] {
      var init := pairs[..|pairs| - 1];
      LoadDataKeepsLongPairs(init, fetch);
      assert pairs == init + [pairs[|pairs| - 1]];
    }
  }

  /** The latest first timestamp over the pairs. */
  function Earliest(order: seq<string>, klines: map<string, seq<Candle>>): (r: int)
    requires order != [] && forall k :: 0 <= k < |order| ==> order[k] in klines && klines[order[k]] != []
    ensures forall k :: 0 <= k < |order| ==> klines[order[k]][0].timestamp <= r
  {
    var first := klines[order[|order| - 1]][0].timestamp;
    if |order| == 1 then first else MaxInt(Earliest(order[..|order| - 1], klines), first)
  }

  /** The earliest last timestamp over the pairs. */
  function Latest(order: seq<string>, klines: map<string, seq<Candle>>): (r: int)
    requires order != [] && forall k :: 0 <= k < |order| ==> order[k] in klines && klines[order[k]] != []
    ensures forall k :: 0 <= k < |order| ==> r <= klines[order[k]][|klines[order[k]]| - 1].timestamp
  {
    var ks := klines[order[|order| - 1]];
    var last := ks[|ks| - 1].timestamp;
    if |order| == 1 then last
    else
      var rest := Latest(order[..|order| - 1], klines);
      if rest <= last then rest else last
  }

  /** `[k for k in klines if k['timestamp'] <= t]` */
  function UpTo(klines: seq<Candle>, t: int): (r: seq<Candle>)
    ensures |r| <= |klines|
    ensures forall k :: 0 <= k < |r| ==> r[k].timestamp <= t && r[k] in klines
  {
    if klines == [] then []
    else
      var init := UpTo(klines[..|klines| - 1], t);
      var c := klines[|klines| - 1];
      if c.timestamp <= t then init + [c] else init
  }

  lemma {:induction false} UpToMonotone(klines: seq<Candle>, t1: int, t2: int)
    requires t1 <= t2
    ensures |UpTo(klines, t1)| <= |UpTo(klines, t2)|
  {
    if klines != [] {
      UpToMonotone(klines[..|klines| - 1], t1, t2);
    }
  }

  /** `[k for k in klines if k['timestamp'] == t]` */
  function At(klines: seq<Candle>, t: int): (r: seq<Candle>)
    ensures forall k :: 0 <= k < |r| ==> r[k].timestamp == t && r[k] in klines
  {
    if klines == [] then []
    else
      var init := At(klines[..|klines| - 1], t);
      var c := klines[|klines| - 1];
      if c.timestamp == t then init + [c] else init
  }

  lemma AppendAssociates<T>(a: seq<T>, b: seq<T>, c: seq<T>)
    ensures a + b + c == a + (b + c)
  {
  }

  /** A pair whose candles reach back to `latest` or earlier, so the final
      close has a price. */
  predicate Covered(t: PairTable, pair: string, latest: int) {
    pair in t.klines && UpTo(t.klines[pair], latest) != []
  }

  predicate AllCovered(ps: seq<Position>, t: PairTable, latest: int) {
    forall pair :: pair in PairsOf(ps) ==> Covered(t, pair, latest)
  }

  /** Candles whose close is a usable price. */
  predicate PositiveCloses(klines: seq<Candle>) {
    forall k :: 0 <= k < |klines| ==> klines[k].close > 0.0
  }

  // ---------------------------------------------------------------------
  // scan_for_opportunities
  // ---------------------------------------------------------------------

  datatype Opportunity = Opportunity(score: int, indicators: Indicators)

  /** A pair's recent candles are an opportunity when there are at least 50,
      the indicators can be computed and scored, and the score reaches the
      minimum; any failure is skipped. */
  function ScanForOpportunities(minScore: int, klines: seq<Candle>, analyze: seq<Candle> -> Option<Indicators>)
    : (r: Option<Opportunity>)
    ensures r.Some? <==> |klines| >= 50 && analyze(klines).Some?
                         && ScoreSetup(analyze(klines).value).Some?
                         && ScoreSetup(analyze(klines).value).value >= minScore
    ensures r.Some? ==> r.value.indicators == analyze(klines).value
                        && r.value.score == ScoreSetup(r.value.indicators).value
                        && minScore <= r.value.score <= 7 && r.value.indicators.price != 0.0
  {
    if |klines| < 50 then None
    else
      var indicators := analyze(klines);
      if indicators.None? then None
      else
        var score := ScoreSetup(indicators.value);
        if score.Some? && score.value >= minScore then Some(Opportunity(score.value, indicators.value))
        else None
  }

  /** Indicator results whose price can be an entry price. */
  ghost predicate PositiveEntries(analyze: seq<Candle> -> Option<Indicators>) {
    forall klines :: analyze(klines).Some? ==> analyze(klines).value.price > 0.0
  }

  // ---------------------------------------------------------------------
  // The replay, on the account
  // ---------------------------------------------------------------------

  /** One pair of a scheduled scan: with at least 100 candles up to now,
      the last 100 are scanned and an opportunity is offered to
      `open_position` at the indicators' price.  Either nothing changes, or
      one position of this pair, entered now, is paid from the balance. */
  function ScanPairAccount(cfg: Config, a: Account, table: PairTable, pair: string,
                           analyze: seq<Candle> -> Option<Indicators>, current: int): (r: Account)
    requires Inv(cfg, a) && pair in table.klines && PositiveEntries(analyze)
    ensures Inv(cfg, r)
    ensures r == a || (|UpTo(table.klines[pair], current)| >= 100
                       && |r.positions| == |a.positions| + 1
                       && r == Opened(a, r.positions[|a.positions|])
                       && r.positions[|a.positions|].pair == pair
                       && r.positions[|a.positions|].entryTimestamp == current)
    ensures PairsOf(r.positions) <= PairsOf(a.positions) + {pair}
  {
    var historical := UpTo(table.klines[pair], current);
    if |historical| < 100 then a
    else
      var result := ScanForOpportunities(cfg.minScore, historical[|historical| - 100..], analyze);
      if result.None? then a
      else
        var position := OpenDecision(cfg, a, pair, result.value.indicators.price, result.value.score, current);
        if position.None? then a
        else
          OpenPreservesInv(cfg, a, pair, result.value.indicators.price, result.value.score, current);
          PairsOfAppend(a.positions, position.value);
          Opened(a, position.value)
  }

  /** The scan of the pairs in `order`, one after the other.  Nothing
      closes; positions only join the end of the list, each for a pair with
      at least 100 candles up to now. */
  function ScanAccount(cfg: Config, a: Account, table: PairTable, order: seq<string>,
                       analyze: seq<Candle> -> Option<Indicators>, current: int): (r: Account)
    requires Inv(cfg, a) && PositiveEntries(analyze)
    requires forall k :: 0 <= k < |order| ==> order[k] in table.klines
    ensures Inv(cfg, r) && r.closedTrades == a.closedTrades
    ensures |a.positions| <= |r.positions| && r.positions[..|a.positions|] == a.positions
    ensures forall pair :: pair in PairsOf(r.positions) ==>
              pair in PairsOf(a.positions) || (pair in table.klines && |UpTo(table.klines[pair], current)| >= 100)
    decreases |order|
  {
    if order == [] then a
    else
      var b := ScanPairAccount(cfg, a, table, order[0], analyze, current);
      var r := ScanAccount(cfg, b, table, order[1..], analyze, current);
      PrefixTransitive(a.positions, b.positions, r.positions);
      assert forall pair :: pair in PairsOf(b.positions) ==>
               pair in PairsOf(a.positions) || (pair in table.klines && |UpTo(table.klines[pair], current)| >= 100) by {
        if b != a {
          assert PairsOf(b.positions) <= PairsOf(a.positions) + {order[0]};
        }
      }
      r
  }

  /** The exit pass of one tick over the pairs in `order`: each pair still
      held that has a candle at `current` runs `check_exits` with the first
      such candle, on every open position. */
  function ExitPass(cfg: Config, isoDate: int -> string, a: Account, table: PairTable, order: seq<string>,
                    current: int): (r: Account)
    requires Inv(cfg, a) && forall k :: 0 <= k < |order| ==> order[k] in table.klines
    ensures Inv(cfg, r) && PairsOf(r.positions) <= PairsOf(a.positions)
    ensures |a.closedTrades| <= |r.closedTrades| && r.closedTrades[..|a.closedTrades|] == a.closedTrades
    decreases |order|
  {
    if order == [] then a
    else
      var candles := At(table.klines[order[0]], current);
      var b := if order[0] in PairsOf(a.positions) && candles != [] then AfterExits(cfg, isoDate, a, candles[0]) else a;
      var r := ExitPass(cfg, isoDate, b, table, order[1..], current);
      PrefixTransitive(a.closedTrades, b.closedTrades, r.closedTrades);
      r
  }

  /** The account and the scan count the time loop ends with. */
  datatype Replayed = Replayed(account: Account, scans: nat)

  /** One tick at `current`: the scan of every loaded pair when it is due,
      then the exit pass.  The account keeps its invariant, every pair it
      holds keeps a price at `latest`, and trades are only appended. */
  function Tick(cfg: Config, isoDate: int -> string, a: Account, table: PairTable,
                analyze: seq<Candle> -> Option<Indicators>, current: int, latest: int, due: bool): (r: Account)
    requires Inv(cfg, a) && PositiveEntries(analyze) && current <= latest
    requires forall k :: 0 <= k < |table.order| ==> table.order[k] in table.klines
    requires AllCovered(a.positions, table, latest)
    ensures Inv(cfg, r) && AllCovered(r.positions, table, latest)
    ensures |a.closedTrades| <= |r.closedTrades| && r.closedTrades[..|a.closedTrades|] == a.closedTrades
  {
    var b := if due then ScanAccount(cfg, a, table, table.order, analyze, current) else a;
    ScanKeepsCovered(cfg, a, b, table, current, latest);
    var c := ExitPass(cfg, isoDate, b, table, table.order, current);
    CoveredShrinks(b.positions, c.positions, table, latest);
    c
  }

  /** The time loop from `current` on: while `current` has not passed
      `latest`, a tick that scans when the scan interval has passed since
      `lastScan`, then one timeframe on; the scans are counted. */
  function ReplayFrom(cfg: Config, isoDate: int -> string, a: Account, table: PairTable,
                      analyze: seq<Candle> -> Option<Indicators>, current: int, lastScan: int, latest: int,
                      tf: int, scanMs: int): (r: Replayed)
    requires Inv(cfg, a) && PositiveEntries(analyze) && tf > 0
    requires forall k :: 0 <= k < |table.order| ==> table.order[k] in table.klines
    requires AllCovered(a.positions, table, latest)
    ensures current > latest ==> r == Replayed(a, 0)
    decreases latest + tf - current
  {
    if current > latest then Replayed(a, 0)
    else
      var due := current >= lastScan + scanMs;
      var c := Tick(cfg, isoDate, a, table, analyze, current, latest, due);
      var rest := ReplayFrom(cfg, isoDate, c, table, analyze, current + tf, if due then current else lastScan,
                             latest, tf, scanMs);
      Replayed(rest.account, rest.scans + if due then 1 else 0)
  }

  /** The time loop keeps the account's invariant, keeps a price at
      `latest` for every pair held, and only appends trades. */
  lemma {:induction false} ReplayKeepsInv(cfg: Config, isoDate: int -> string, a: Account, table: PairTable,
                                          analyze: seq<Candle> -> Option<Indicators>, current: int, lastScan: int,
                                          latest: int, tf: int, scanMs: int)
    requires Inv(cfg, a) && PositiveEntries(analyze) && tf > 0
    requires forall k :: 0 <= k < |table.order| ==> table.order[k] in table.klines
    requires AllCovered(a.positions, table, latest)
    ensures var r := ReplayFrom(cfg, isoDate, a, table, analyze, current, lastScan, latest, tf, scanMs);
            Inv(cfg, r.account) && AllCovered(r.account.positions, table, latest)
            && |a.closedTrades| <= |r.account.closedTrades| && r.account.closedTrades[..|a.closedTrades|] == a.closedTrades
    decreases latest + tf - current
  {
    if current <= latest {
      var due := current >= lastScan + scanMs;
      var c := Tick(cfg, isoDate, a, table, analyze, current, latest, due);
      ReplayKeepsInv(cfg, isoDate, c, table, analyze, current + tf, if due then current else lastScan, latest, tf, scanMs);
      var rest := ReplayFrom(cfg, isoDate, c, table, analyze, current + tf, if due then current else lastScan,
                             latest, tf, scanMs);
      PrefixTransitive(a.closedTrades, c.closedTrades, rest.account.closedTrades);
    }
  }

  /** With no position open, the exit pass does nothing. */
  lemma {:induction false} ExitPassWithoutPositions(cfg: Config, isoDate: int -> string, a: Account, table: PairTable,
                                                    order: seq<string>, current: int)
    requires Inv(cfg, a) && a.positions == [] && forall k :: 0 <= k < |order| ==> order[k] in table.klines
    ensures ExitPass(cfg, isoDate, a, table, order, current) == a
    decreases |order|
  {
    if order != [] {
      ExitPassWithoutPositions(cfg, isoDate, a, table, order[1..], current);
    }
  }

  /** The first scan comes only a full scan interval after the last one:
      an empty account replayed over ticks that all fall before
      `lastScan + scanMs` scans nothing, opens nothing and closes
      nothing. */
  lemma {:induction false} NoScanWithinInterval(cfg: Config, isoDate: int -> string, a: Account, table: PairTable,
                                                analyze: seq<Candle> -> Option<Indicators>, current: int,
                                                lastScan: int, latest: int, tf: int, scanMs: int)
    requires Inv(cfg, a) && a.positions == [] && PositiveEntries(analyze) && tf > 0
    requires forall k :: 0 <= k < |table.order| ==> table.order[k] in table.klines
    requires latest < lastScan + scanMs
    ensures ReplayFrom(cfg, isoDate, a, table, analyze, current, lastScan, latest, tf, scanMs) == Replayed(a, 0)
    decreases latest + tf - current
  {
    if current <= latest {
      ExitPassWithoutPositions(cfg, isoDate, a, table, table.order, current);
      NoScanWithinInterval(cfg, isoDate, a, table, analyze, current + tf, lastScan, latest, tf, scanMs);
    }
  }

  /** A scan is due on a tick whenever the interval is not positive, so
      such an interval scans on every tick, the first one included. */
  lemma ScanDueWithoutInterval(cfg: Config, isoDate: int -> string, a: Account, table: PairTable,
                               analyze: seq<Candle> -> Option<Indicators>, current: int, latest: int,
                               tf: int, scanMs: int)
    requires Inv(cfg, a) && PositiveEntries(analyze) && tf > 0 && scanMs <= 0 && current <= latest
    requires forall k :: 0 <= k < |table.order| ==> table.order[k] in table.klines
    requires AllCovered(a.positions, table, latest)
    ensures ReplayFrom(cfg, isoDate, a, table, analyze, current, current, latest, tf, scanMs).scans >= 1
  {
  }

  /** A scan only adds pairs with at least 100 candles up to now, so at a
      tick no later than `latest` they all have a price at `latest`. */
  lemma ScanKeepsCovered(cfg: Config, a: Account, b: Account, table: PairTable, current: int, latest: int)
    requires current <= latest && AllCovered(a.positions, table, latest)
    requires forall pair :: pair in PairsOf(b.positions) ==>
               pair in PairsOf(a.positions) || (pair in table.klines && |UpTo(table.klines[pair], current)| >= 100)
    ensures AllCovered(b.positions, table, latest)
  {
    forall pair | pair in PairsOf(b.positions) ensures Covered(table, pair, latest) {
      if pair !in PairsOf(a.positions) {
        UpToMonotone(table.klines[pair], current, latest);
      }
    }
  }

  /** The close of the last candle of `pair` up to `latest`, the price a
      position still open at the end of the window closes at. */
  function FinalPrice(table: PairTable, pair: string, latest: int): (r: real)
    requires Covered(table, pair, latest)
    ensures exists c :: c in table.klines[pair] && c.timestamp <= latest && r == c.close
    ensures PositiveCloses(table.klines[pair]) ==> r > 0.0
  {
    var finalKlines := UpTo(table.klines[pair], latest);
    finalKlines[|finalKlines| - 1].close
  }

  /** The drain at the end of the window: the first open position closes
      at its pair's final price with reason `BacktestEnd`, until none is
      left; each position gives one trade. */
  function DrainAccount(cfg: Config, isoDate: int -> string, a: Account, table: PairTable, latest: int): (r: Account)
    requires Inv(cfg, a) && AllCovered(a.positions, table, latest)
    requires forall p :: p in table.klines ==> PositiveCloses(table.klines[p])
    ensures Inv(cfg, r) && r.positions == []
    ensures |r.closedTrades| == |a.closedTrades| + |a.positions| && r.closedTrades[..|a.closedTrades|] == a.closedTrades
    decreases |a.positions|
  {
    if a.positions == [] then a
    else
      var b := DrainStepAccount(cfg, isoDate, a, table, latest);
      var r := DrainAccount(cfg, isoDate, b, table, latest);
      PrefixTransitive(a.closedTrades, b.closedTrades, r.closedTrades);
      r
  }

  /** One drain step: the first open position closed at its final price. */
  function DrainStepAccount(cfg: Config, isoDate: int -> string, a: Account, table: PairTable, latest: int): (b: Account)
    requires Inv(cfg, a) && AllCovered(a.positions, table, latest) && a.positions != []
    requires forall p :: p in table.klines ==> PositiveCloses(table.klines[p])
    ensures Inv(cfg, b) && AllCovered(b.positions, table, latest) && b.positions == a.positions[1..]
    ensures a.positions[0].positionValue != 0.0 && Covered(table, a.positions[0].pair, latest)
    ensures b.closedTrades == a.closedTrades
              + [CloseTrade(cfg, a.positions[0], FinalPrice(table, a.positions[0].pair, latest), BacktestEnd, latest)]
  {
    var p := a.positions[0];
    assert p.pair in PairsOf(a.positions);
    var price := FinalPrice(table, p.pair, latest);
    ClosePreservesInv(cfg, isoDate, a, 0, price, BacktestEnd, latest);
    ClosedAtPairs(cfg, isoDate, a, 0, price, BacktestEnd, latest);
    var b := ClosedAt(cfg, isoDate, a, 0, price, BacktestEnd, latest);
    CoveredShrinks(a.positions, b.positions, table, latest);
    b
  }

  /** Drain completeness: after the drain no position is open, the balance
      is the starting balance plus the realised P&L, and the position at
      index `k` before the drain gave the trade at index
      `|a.closedTrades| + k`, closed at its pair's final price with reason
      `BacktestEnd` at the end of the window. */
  lemma {:induction false} DrainTrades(cfg: Config, isoDate: int -> string, a: Account, table: PairTable, latest: int)
    requires Inv(cfg, a) && AllCovered(a.positions, table, latest)
    requires forall p :: p in table.klines ==> PositiveCloses(table.klines[p])
    ensures var r := DrainAccount(cfg, isoDate, a, table, latest);
            r.positions == [] && r.balance == cfg.initialBalance + SumPnl(r.closedTrades)
            && forall k :: 0 <= k < |a.positions| ==>
                 a.positions[k].positionValue != 0.0 && Covered(table, a.positions[k].pair, latest)
                 && r.closedTrades[|a.closedTrades| + k]
                    == CloseTrade(cfg, a.positions[k], FinalPrice(table, a.positions[k].pair, latest), BacktestEnd, latest)
    decreases |a.positions|
  {
    var r := DrainAccount(cfg, isoDate, a, table, latest);
    if a.positions != [] {
      var b := DrainStepAccount(cfg, isoDate, a, table, latest);
      DrainTrades(cfg, isoDate, b, table, latest);
      assert r == DrainAccount(cfg, isoDate, b, table, latest);
      DrainStep(cfg, a, b, r, table, latest);
    }
  }

  /** The trades of one drain step: the first position's trade, then the
      rest's. */
  lemma DrainStep(cfg: Config, a: Account, b: Account, r: Account, table: PairTable, latest: int)
    requires Inv(cfg, a) && AllCovered(a.positions, table, latest) && a.positions != []
    requires b.positions == a.positions[1..]
    requires b.closedTrades == a.closedTrades + [CloseTrade(cfg, a.positions[0], FinalPrice(table, a.positions[0].pair, latest), BacktestEnd, latest)]
    requires |r.closedTrades| == |b.closedTrades| + |b.positions| && r.closedTrades[..|b.closedTrades|] == b.closedTrades
    requires forall k :: 0 <= k < |b.positions| ==>
               b.positions[k].positionValue != 0.0 && Covered(table, b.positions[k].pair, latest)
               && r.closedTrades[|b.closedTrades| + k]
                  == CloseTrade(cfg, b.positions[k], FinalPrice(table, b.positions[k].pair, latest), BacktestEnd, latest)
    ensures |r.closedTrades| == |a.closedTrades| + |a.positions| && r.closedTrades[..|a.closedTrades|] == a.closedTrades
    ensures forall k :: 0 <= k < |a.positions| ==>
              a.positions[k].positionValue != 0.0 && Covered(table, a.positions[k].pair, latest)
              && r.closedTrades[|a.closedTrades| + k]
                 == CloseTrade(cfg, a.positions[k], FinalPrice(table, a.positions[k].pair, latest), BacktestEnd, latest)
  {
    PrefixTransitive(a.closedTrades, b.closedTrades, r.closedTrades);
    assert r.closedTrades[|a.closedTrades|] == b.closedTrades[|a.closedTrades|];
    assert Sane(a.positions[0]);
    assert a.positions[0].pair in PairsOf(a.positions);
    forall k | 1 <= k < |a.positions|
      ensures r.closedTrades[|a.closedTrades| + k]
              == CloseTrade(cfg, a.positions[k], FinalPrice(table, a.positions[k].pair, latest), BacktestEnd, latest)
    {
      assert a.positions[k] == b.positions[k - 1];
    }
  }

  /** The inputs `run_backtest` needs: a valid account with nothing open,
      a positive timeframe, and prices that can be entries and exits. */
  ghost predicate RunReady(cfg: Config, a: Account, fetch: string -> seq<Candle>,
                           analyze: seq<Candle> -> Option<Indicators>) {
    Inv(cfg, a) && a.positions == [] && PositiveEntries(analyze)
    && (forall p :: PositiveCloses(fetch(p)))
    && TimeframeStep(cfg.timeframe).Some?
  }

  /** The progress line of the first scan divides by the window's length
      (lib/backtest_engine.py:487), so a run that scans in a window of one
      instant raises; only a positive scan interval or a window with a
      length avoids it. */
  ghost predicate ProgressDefined(t: PairTable, scanIntervalHours: int)
    requires forall p :: p in t.klines ==> |t.klines[p]| >= 100
    requires forall p :: p in t.klines <==> p in t.order
  {
    t.order == [] || scanIntervalHours > 0 || Earliest(t.order, t.klines) != Latest(t.order, t.klines)
  }

  /** In a window of one instant the time loop has a single tick, and it
      scans, dividing by the window's zero length, exactly when the scan
      interval is not positive. */
  lemma OneInstantWindowScans(cfg: Config, isoDate: int -> string, a: Account, table: PairTable,
                              analyze: seq<Candle> -> Option<Indicators>, t: int, tf: int, scanMs: int)
    requires Inv(cfg, a) && PositiveEntries(analyze) && tf > 0
    requires forall k :: 0 <= k < |table.order| ==> table.order[k] in table.klines
    requires AllCovered(a.positions, table, t)
    ensures ReplayFrom(cfg, isoDate, a, table, analyze, t, t, t, tf, scanMs).scans == 0 <==> scanMs > 0
  {
  }

  /** `run_backtest` on the account: no result when no pair has at least
      100 candles; otherwise the time loop over the common window, from the
      latest first candle to the earliest last candle with the scan clock
      starting at the window's start, then the drain at the window's end. */
  function RunAccount(cfg: Config, isoDate: int -> string, a: Account, pairs: seq<string>,
                      fetch: string -> seq<Candle>, analyze: seq<Candle> -> Option<Indicators>,
                      scanIntervalHours: int): (r: Option<Replayed>)
    requires RunReady(cfg, a, fetch, analyze)
    requires ProgressDefined(LoadData(pairs, fetch), scanIntervalHours)
    ensures r.None? <==> LoadData(pairs, fetch).order == []
    ensures r.Some? ==> Inv(cfg, r.value.account) && r.value.account.positions == []
                        && |a.closedTrades| <= |r.value.account.closedTrades|
                        && r.value.account.closedTrades[..|a.closedTrades|] == a.closedTrades
  {
    var table := LoadData(pairs, fetch);
    if table.order == [] then None
    else
      var earliest := Earliest(table.order, table.klines);
      var latest := Latest(table.order, table.klines);
      var replayed := ReplayFrom(cfg, isoDate, a, table, analyze, earliest, earliest, latest,
                                 TimeframeStep(cfg.timeframe).value, scanIntervalHours * 60 * 60 * 1000);
      ReplayKeepsInv(cfg, isoDate, a, table, analyze, earliest, earliest, latest,
                     TimeframeStep(cfg.timeframe).value, scanIntervalHours * 60 * 60 * 1000);
      var drained := DrainAccount(cfg, isoDate, replayed.account, table, latest);
      PrefixTransitive(a.closedTrades, replayed.account.closedTrades, drained.closedTrades);
      Some(Replayed(drained, replayed.scans))
  }

  /** After a run no position is open and the balance is the starting
      balance plus the realised P&L of every trade. */
  lemma RunDrainsEverything(cfg: Config, isoDate: int -> string, a: Account, pairs: seq<string>,
                            fetch: string -> seq<Candle>, analyze: seq<Candle> -> Option<Indicators>,
                            scanIntervalHours: int)
    requires RunReady(cfg, a, fetch, analyze)
    requires ProgressDefined(LoadData(pairs, fetch), scanIntervalHours)
    requires RunAccount(cfg, isoDate, a, pairs, fetch, analyze, scanIntervalHours).Some?
    ensures var b := RunAccount(cfg, isoDate, a, pairs, fetch, analyze, scanIntervalHours).value.account;
            b.positions == [] && b.balance == cfg.initialBalance + SumPnl(b.closedTrades)
  {
  }

  /** A window shorter than one scan interval scans nothing: the fresh
      account is left with no trade at all. */
  lemma ShortWindowTradesNothing(cfg: Config, isoDate: int -> string, pairs: seq<string>,
                                 fetch: string -> seq<Candle>, analyze: seq<Candle> -> Option<Indicators>,
                                 scanIntervalHours: int)
    requires RunReady(cfg, Fresh(cfg), fetch, analyze)
    requires var t := LoadData(pairs, fetch);
             t.order != [] && Latest(t.order, t.klines) < Earliest(t.order, t.klines) + scanIntervalHours * 60 * 60 * 1000
    ensures RunAccount(cfg, isoDate, Fresh(cfg), pairs, fetch, analyze, scanIntervalHours) == Some(Replayed(Fresh(cfg), 0))
  {
    var t := LoadData(pairs, fetch);
    var earliest := Earliest(t.order, t.klines);
    var latest := Latest(t.order, t.klines);
    assert scanIntervalHours <= 0 ==> scanIntervalHours * 60 * 60 * 1000 <= 0;
    NoScanWithinInterval(cfg, isoDate, Fresh(cfg), t, analyze, earliest, earliest, latest,
                         TimeframeStep(cfg.timeframe).value, scanIntervalHours * 60 * 60 * 1000);
  }

  lemma PrefixTransitive<T>(a: seq<T>, b: seq<T>, c: seq<T>)
    requires |a| <= |b| && b[..|a|] == a
    requires |b| <= |c| && c[..|b|] == b
    ensures |a| <= |c| && c[..|a|] == a
  {
    assert c[..|a|] == c[..|b|][..|a|];
  }

  // ---------------------------------------------------------------------
  // The engine
  // ---------------------------------------------------------------------

  class Engine {
    const config: Config
    const isoDate: int -> string

    var balance: real
    var positions: seq<Position>
    var closedTrades: seq<Trade>
    var dailyTrades: map<string, seq<Trade>>
    var totalTrades: int
    var winningTrades: int
    var losingTrades: int
    var totalPnl: real
    var peakBalance: real
    var maxDrawdown: real

    function State(): Account
      reads this
    {
      Account(balance, positions, closedTrades, dailyTrades, totalTrades, winningTrades, losingTrades,
              totalPnl, peakBalance, maxDrawdown)
    }

    predicate Valid()
      reads this
    {
      Inv(config, State())
    }

    /** The fee and slippage arguments are percentages. */
    constructor(initialBalance: real, tradingFeePercent: real, slippagePercent: real,
                maxPositionSize: real, maxPositions: int, stopLossPct: real, takeProfitPct: real,
                minScore: int, timeframe: string, isoDate: int -> string)
      requires ConfigOk(Config(initialBalance, tradingFeePercent / 100.0, slippagePercent / 100.0,
                               maxPositionSize, maxPositions, stopLossPct, takeProfitPct, minScore, timeframe))
      ensures config == Config(initialBalance, tradingFeePercent / 100.0, slippagePercent / 100.0,
                               maxPositionSize, maxPositions, stopLossPct, takeProfitPct, minScore, timeframe)
      ensures this.isoDate == isoDate
      ensures State() == Fresh(config) && Valid()
    {
      config := Config(initialBalance, tradingFeePercent / 100.0, slippagePercent / 100.0,
                       maxPositionSize, maxPositions, stopLossPct, takeProfitPct, minScore, timeframe);
      this.isoDate := isoDate;
      balance := initialBalance;
      positions := [];
      closedTrades := [];
      dailyTrades := map[];
      totalTrades := 0;
      winningTrades := 0;
      losingTrades := 0;
      totalPnl := 0.0;
      peakBalance := initialBalance;
      maxDrawdown := 0.0;
      new;
      FreshInv(config);
    }

    /** `open_position`: refused at the cap, for a pair already held, or
        when the balance cannot pay; otherwise the cost leaves the balance
        and the position joins the list. */
    method OpenPosition(pair: string, entryPrice: real, score: int, timestamp: int)
      returns (position: Option<Position>)
      requires Valid() && entryPrice > 0.0
      modifies this
      ensures position == OpenDecision(config, old(State()), pair, entryPrice, score, timestamp)
      ensures State() == if position.Some? then Opened(old(State()), position.value) else old(State())
      ensures Valid()
    {
      if |positions| >= config.maxPositions {
        return None;
      }
      if pair in PairsOf(positions) {
        return None;
      }
      var stopLoss := entryPrice * (1.0 - config.stopLossPct / 100.0);
      var takeProfit := entryPrice * (1.0 + config.takeProfitPct / 100.0);
      var quantity := PositionQuantity(config, balance, entryPrice);
      var costs := TradingCosts(entryPrice, quantity, Buy, config.slippage, config.tradingFee);
      if costs.total > balance {
        return None;
      }
      var p := Position(pair, costs.actualPrice, quantity, stopLoss, takeProfit, timestamp, score,
                        costs.total, stopLoss, false, costs.actualPrice);
      assert p == Candidate(config, balance, pair, entryPrice, score, timestamp);
      OpenPreservesInv(config, State(), pair, entryPrice, score, timestamp);
      balance := balance - costs.total;
      positions := positions + [p];
      position := Some(p);
    }

    /** `close_position` of the position at index `i`; the two divisions
        need a non-zero position value and peak balance.  That the
        bookkeeping survives is `ClosePreservesInv`. */
    method ClosePosition(i: nat, exitPrice: real, reason: ExitReason, timestamp: int) returns (trade: Trade)
      requires i < |positions| && positions[i].positionValue != 0.0 && peakBalance != 0.0
      modifies this
      ensures trade == CloseTrade(config, old(positions[i]), exitPrice, reason, timestamp)
      ensures State() == ClosedAt(config, isoDate, old(State()), i, exitPrice, reason, timestamp)
    {
      var position := positions[i];
      var costs := TradingCosts(exitPrice, position.quantity, Sell, config.slippage, config.tradingFee);
      var pnlUsdt := costs.total - position.positionValue;
      var pnlPct := (pnlUsdt / position.positionValue) * 100.0;
      var durationSeconds := (timestamp - position.entryTimestamp) as real / 1000.0;
      var durationHours := durationSeconds / 3600.0;
      trade := Trade(position.pair, position.entryPrice, costs.actualPrice, position.quantity, durationHours,
                     pnlUsdt, pnlPct, reason, position.score, position.positionValue);
      Record(i, trade, costs.total, isoDate(timestamp));
    }

    /** The bookkeeping half of `close_position`: the proceeds join the
        balance, the counters and the day's list take the trade, the peak or
        the maximum drawdown moves, and the position leaves the list. */
    method Record(i: nat, trade: Trade, proceeds: real, tradeDate: string)
      requires i < |positions| && peakBalance != 0.0
      modifies this
      ensures State() == Recorded(old(State()), i, trade, proceeds, tradeDate)
    {
      balance := balance + proceeds;
      CountTrade(trade);
      AddToDay(trade, tradeDate);
      UpdatePeak();
      closedTrades := closedTrades + [trade];
      positions := positions[..i] + positions[i + 1..];
    }

    /** The trade counters; a trade that does not gain counts as a loss. */
    method CountTrade(trade: Trade)
      modifies this
      ensures State() == old(State()).(totalTrades := old(totalTrades) + 1, totalPnl := old(totalPnl) + trade.pnlUsdt,
                                       winningTrades := old(winningTrades) + (if trade.pnlUsdt > 0.0 then 1 else 0),
                                       losingTrades := old(losingTrades) + (if trade.pnlUsdt > 0.0 then 0 else 1))
    {
      totalTrades := totalTrades + 1;
      totalPnl := totalPnl + trade.pnlUsdt;
      if trade.pnlUsdt > 0.0 {
        winningTrades := winningTrades + 1;
      } else {
        losingTrades := losingTrades + 1;
      }
    }

    /** The exit day's list, created empty on the day's first trade. */
    method AddToDay(trade: Trade, tradeDate: string)
      modifies this
      ensures State() == old(State()).(dailyTrades := old(dailyTrades)[tradeDate := DayTrades(old(dailyTrades), tradeDate) + [trade]])
    {
      if tradeDate !in dailyTrades {
        dailyTrades := dailyTrades[tradeDate := []];
      }
      dailyTrades := dailyTrades[tradeDate := dailyTrades[tradeDate] + [trade]];
    }

    /** A new high raises the peak; otherwise the drawdown from the peak may
        raise the maximum drawdown. */
    method UpdatePeak()
      requires peakBalance != 0.0
      modifies this
      ensures State() == if old(balance) > old(peakBalance) then old(State()).(peakBalance := old(balance))
                         else old(State()).(maxDrawdown := MaxReal(old(maxDrawdown), (old(peakBalance) - old(balance)) / old(peakBalance)))
    {
      if balance > peakBalance {
        peakBalance := balance;
      } else {
        var drawdown := (peakBalance - balance) / peakBalance;
        maxDrawdown := MaxReal(maxDrawdown, drawdown);
      }
    }

    /** `update_trailing_stop` on the position at index `i`, in place. */
    method UpdateTrailingStop(i: nat, currentPrice: real)
      requires i < |positions|
      modifies this
      ensures positions == old(positions)[i := Ratchet(old(positions[i]), currentPrice)]
      ensures State() == old(State()).(positions := positions)
    {
      var position := positions[i];
      var activationThreshold := position.entryPrice * 1.03;
      if currentPrice > position.highestPrice {
        position := position.(highestPrice := currentPrice);
      }
      if !position.trailingActive && currentPrice >= activationThreshold {
        position := position.(trailingActive := true, trailingStop := position.highestPrice * 0.985);
      } else if position.trailingActive {
        var newStop := position.highestPrice * 0.985;
        if newStop > position.trailingStop {
          position := position.(trailingStop := newStop);
        }
      }
      positions := positions[i := position];
    }

    /** `check_exits`: every open position is ratcheted with the candle's
        close and tested against it, then the triggered exits are closed in
        order.  The one candle serves every position, whatever its pair. */
    method CheckExits(candle: Candle) returns (closed: seq<Trade>)
      requires Valid()
      modifies this
      ensures State() == AfterExits(config, isoDate, old(State()), candle)
      ensures Valid()
      ensures closedTrades == old(closedTrades) + closed
    {
      var exits := RatchetAll(candle);
      ghost var start := State();
      assert start == old(State()).(positions := Ratcheted(old(positions), candle.close));
      RatchetedKeepsInv(config, old(State()), candle.close);
      closed := [];
      var j := 0;
      while j < |exits|
        invariant 0 <= j <= |exits|
        invariant Valid()
        invariant State() == ClosePairs(config, isoDate, start, exits[..j], candle.timestamp)
        invariant closedTrades == start.closedTrades + closed
      {
        ClosePairsStep(config, isoDate, start, exits, j, candle.timestamp);
        var trade := CloseExit(exits[j], candle.timestamp);
        AppendAssociates(start.closedTrades, closed, trade);
        closed := closed + trade;
        j := j + 1;
      }
      assert exits[..j] == exits;
    }

    /** Closing one triggered exit: the position holding the pair, if it is
        still open, is closed at the exit's price. */
    method CloseExit(exit: ExitOrder, timestamp: int) returns (closed: seq<Trade>)
      requires Valid() && exit.price > 0.0
      modifies this
      ensures State() == CloseOne(config, isoDate, old(State()), exit, timestamp)
      ensures Valid()
      ensures closedTrades == old(closedTrades) + closed
    {
      var index := PairIndex(positions, exit.pair);
      closed := [];
      if index.Some? {
        ClosePreservesInv(config, isoDate, State(), index.value, exit.price, exit.reason, timestamp);
        var trade := ClosePosition(index.value, exit.price, exit.reason, timestamp);
        closed := [trade];
      }
    }

    /** The first loop of `check_exits`: ratchet each position and collect
        the exits the candle triggers. */
    method RatchetAll(candle: Candle) returns (exits: seq<ExitOrder>)
      modifies this
      ensures positions == Ratcheted(old(positions), candle.close)
      ensures State() == old(State()).(positions := positions)
      ensures exits == ExitsOf(positions, candle)
    {
      ghost var start := positions;
      exits := [];
      var i := 0;
      while i < |positions|
        invariant 0 <= i <= |positions| == |start|
        invariant forall k :: 0 <= k < i ==> positions[k] == Ratchet(start[k], candle.close)
        invariant forall k :: i <= k < |positions| ==> positions[k] == start[k]
        invariant State() == old(State()).(positions := positions)
        invariant exits == ExitsOf(positions[..i], candle)
      {
        UpdateTrailingStop(i, candle.close);
        var position := positions[i];
        var exit := ExitFor(position, candle);
        assert positions[..i + 1][..i] == positions[..i];
        if exit.Some? {
          exits := exits + [ExitOrder(position.pair, exit.value.price, exit.value.reason)];
        }
        i := i + 1;
      }
      assert positions[..i] == positions;
      assert positions == Ratcheted(start, candle.close);
    }
  
    /** The loading loop of `run_backtest`. */
    method LoadPairs(pairs: seq<string>, fetch: string -> seq<Candle>) returns (table: PairTable)
      ensures table == LoadData(pairs, fetch)
    {
      table := PairTable([], map[]);
      var i := 0;
      while i < |pairs|
        invariant 0 <= i <= |pairs|
        invariant table == LoadData(pairs[..i], fetch)
      {
        LoadDataStep(pairs, fetch, i);
        var pair := pairs[i];
        var klines := fetch(pair);
        if |klines| >= 100 {
          var order := if pair in table.klines then table.order else table.order + [pair];
          table := PairTable(order, table.klines[pair := klines]);
        }
        i := i + 1;
      }
      assert pairs[..i] == pairs;
    }

    /** One pair of a scheduled scan: with at least 100 candles up to now,
        the last 100 are scanned and an opportunity is offered to
        `open_position` at the indicators' price. */
    method ScanPair(table: PairTable, pair: string, analyze: seq<Candle> -> Option<Indicators>, current: int)
      requires Valid() && pair in table.klines && PositiveEntries(analyze)
      modifies this
      ensures State() == ScanPairAccount(config, old(State()), table, pair, analyze, current)
      ensures Valid()
    {
      var historical := UpTo(table.klines[pair], current);
      if |historical| < 100 {
        return;
      }
      var recent := historical[|historical| - 100..];
      var result := ScanForOpportunities(config.minScore, recent, analyze);
      if result.Some? {
        var position := OpenPosition(pair, result.value.indicators.price, result.value.score, current);
      }
    }

    /** The scan of every loaded pair, in loading order. */
    method ScanAll(table: PairTable, analyze: seq<Candle> -> Option<Indicators>, current: int)
      requires Valid() && PositiveEntries(analyze)
      requires forall k :: 0 <= k < |table.order| ==> table.order[k] in table.klines
      modifies this
      ensures State() == ScanAccount(config, old(State()), table, table.order, analyze, current)
      ensures Valid()
    {
      var i := 0;
      while i < |table.order|
        invariant 0 <= i <= |table.order|
        invariant Valid()
        invariant ScanAccount(config, old(State()), table, table.order, analyze, current)
                  == ScanAccount(config, State(), table, table.order[i..], analyze, current)
      {
        assert table.order[i..][1..] == table.order[i + 1..];
        ScanPair(table, table.order[i], analyze, current);
        i := i + 1;
      }
    }

    /** The exit check of one tick: for every loaded pair that is held and
        has a candle at this tick, `check_exits` runs with that candle. */
    method ExitAll(table: PairTable, current: int)
      requires Valid()
      requires forall k :: 0 <= k < |table.order| ==> table.order[k] in table.klines
      modifies this
      ensures State() == ExitPass(config, isoDate, old(State()), table, table.order, current)
      ensures Valid()
    {
      var i := 0;
      while i < |table.order|
        invariant 0 <= i <= |table.order|
        invariant Valid()
        invariant ExitPass(config, isoDate, old(State()), table, table.order, current)
                  == ExitPass(config, isoDate, State(), table, table.order[i..], current)
      {
        assert table.order[i..][1..] == table.order[i + 1..];
        var pair := table.order[i];
        if pair in PairsOf(positions) {
          var currentCandles := At(table.klines[pair], current);
          if currentCandles != [] {
            var trades := CheckExits(currentCandles[0]);
          }
        }
        i := i + 1;
      }
    }

    /** The first remaining position closes at the last close up to the end
        of the window, with reason `BacktestEnd`. */
    method CloseAtEnd(table: PairTable, latest: int) returns (trade: Trade)
      requires Valid() && positions != [] && AllCovered(positions, table, latest)
      requires forall p :: p in table.klines ==> PositiveCloses(table.klines[p])
      modifies this
      ensures State() == DrainStepAccount(config, isoDate, old(State()), table, latest)
      ensures trade == CloseTrade(config, old(positions)[0], FinalPrice(table, old(positions)[0].pair, latest),
                                  BacktestEnd, latest)
      ensures Valid() && AllCovered(positions, table, latest)
    {
      var position := positions[0];
      assert position.pair in PairsOf(positions);
      // The source's `if final_klines` always holds: every open pair is covered.
      var finalKlines := UpTo(table.klines[position.pair], latest);
      var finalPrice := finalKlines[|finalKlines| - 1].close;
      trade := ClosePosition(0, finalPrice, BacktestEnd, latest);
    }

    /** The drain of `run_backtest`: every position still open closes, in
        order, each with one trade of reason `BacktestEnd`. */
    method Drain(table: PairTable, latest: int) returns (drained: seq<Trade>)
      requires Valid() && AllCovered(positions, table, latest)
      requires forall p :: p in table.klines ==> PositiveCloses(table.klines[p])
      modifies this
      ensures State() == DrainAccount(config, isoDate, old(State()), table, latest)
      ensures Valid() && positions == []
      ensures closedTrades == old(closedTrades) + drained
    {
      drained := [];
      while positions != []
        invariant Valid() && AllCovered(positions, table, latest)
        invariant DrainAccount(config, isoDate, old(State()), table, latest)
                  == DrainAccount(config, isoDate, State(), table, latest)
        invariant closedTrades == old(closedTrades) + drained
        decreases |positions|
      {
        var trade := CloseAtEnd(table, latest);
        AppendAssociates(old(closedTrades), drained, [trade]);
        drained := drained + [trade];
      }
    }

    /** `run_backtest`: load the pairs, replay the common window tick by
        tick (a scan every `scanIntervalHours`, then the exit checks), drain
        what is still open at the end and report the metrics.  No pair with
        enough data gives no result and leaves the engine as it was. */
    method RunBacktest(pairs: seq<string>, fetch: string -> seq<Candle>, analyze: seq<Candle> -> Option<Indicators>,
                       scanIntervalHours: int) returns (result: Option<Metrics>)
      requires RunReady(config, State(), fetch, analyze)
      requires ProgressDefined(LoadData(pairs, fetch), scanIntervalHours)
      modifies this
      ensures var run := RunAccount(config, isoDate, old(State()), pairs, fetch, analyze, scanIntervalHours);
              && (result.None? <==> run.None?)
              && (run.None? ==> State() == old(State()))
              && (run.Some? ==> State() == run.value.account
                                && result.value == CalculateMetrics(config, State(), run.value.scans))
      ensures Valid()
    {
      var table := LoadPairs(pairs, fetch);
      if table.order == [] {
        return None;
      }
      var earliest := Earliest(table.order, table.klines);
      var latest := Latest(table.order, table.klines);
      var timeframeMs := TimeframeStep(config.timeframe).value;
      var scanIntervalMs := scanIntervalHours * 60 * 60 * 1000;
      assert PairsOf(positions) == {};
      var scans := Replay(table, analyze, earliest, latest, timeframeMs, scanIntervalMs);
      var drained := Drain(table, latest);
      result := Some(CalculateMetrics(config, State(), scans));
    }

    /** One tick of the time loop: the scan of every pair when `due`, then
        the exit pass. */
    method RunTick(table: PairTable, analyze: seq<Candle> -> Option<Indicators>, current: int, latest: int, due: bool)
      requires Valid() && AllCovered(positions, table, latest) && current <= latest
      requires forall k :: 0 <= k < |table.order| ==> table.order[k] in table.klines
      requires PositiveEntries(analyze)
      modifies this
      ensures State() == Tick(config, isoDate, old(State()), table, analyze, current, latest, due)
      ensures Valid() && AllCovered(positions, table, latest)
    {
      if due {
        ScanAll(table, analyze, current);
      }
      ExitAll(table, current);
    }

    /** The time loop of `run_backtest`: from the earliest to the latest
        common timestamp, one timeframe at a time, a scan whenever the scan
        interval has passed since the last one, then the exit pass. */
    method Replay(table: PairTable, analyze: seq<Candle> -> Option<Indicators>, earliest: int, latest: int,
                  timeframeMs: int, scanIntervalMs: int) returns (scans: nat)
      requires Valid() && AllCovered(positions, table, latest)
      requires forall k :: 0 <= k < |table.order| ==> table.order[k] in table.klines
      requires PositiveEntries(analyze) && timeframeMs > 0
      modifies this
      ensures var run := ReplayFrom(config, isoDate, old(State()), table, analyze, earliest, earliest, latest,
                                    timeframeMs, scanIntervalMs);
              State() == run.account && scans == run.scans
      ensures Valid() && AllCovered(positions, table, latest)
    {
      ghost var run := ReplayFrom(config, isoDate, State(), table, analyze, earliest, earliest, latest,
                                  timeframeMs, scanIntervalMs);
      var current := earliest;
      var lastScan := earliest;
      scans := 0;
      while current <= latest
        invariant Valid() && AllCovered(positions, table, latest)
        invariant run.account == ReplayFrom(config, isoDate, State(), table, analyze, current, lastScan, latest,
                                            timeframeMs, scanIntervalMs).account
        invariant run.scans == scans + ReplayFrom(config, isoDate, State(), table, analyze, current, lastScan, latest,
                                                  timeframeMs, scanIntervalMs).scans
        decreases latest + timeframeMs - current
      {
        var due := ReplayTick(table, analyze, current, lastScan, latest, timeframeMs, scanIntervalMs);
        if due {
          scans := scans + 1;
          lastScan := current;
        }
        current := current + timeframeMs;
      }
    }

    /** One turn of the time loop: the tick at `current`, scanning when
        the scan interval has passed since `lastScan`; what is left of the
        loop then runs from the next timeframe. */
    method ReplayTick(table: PairTable, analyze: seq<Candle> -> Option<Indicators>, current: int, lastScan: int,
                      latest: int, timeframeMs: int, scanIntervalMs: int) returns (due: bool)
      requires Valid() && AllCovered(positions, table, latest) && current <= latest
      requires forall k :: 0 <= k < |table.order| ==> table.order[k] in table.klines
      requires PositiveEntries(analyze) && timeframeMs > 0
      modifies this
      ensures due == (current >= lastScan + scanIntervalMs)
      ensures Valid() && AllCovered(positions, table, latest)
      ensures var rest := ReplayFrom(config, isoDate, State(), table, analyze, current + timeframeMs,
                                     if due then current else lastScan, latest, timeframeMs, scanIntervalMs);
              ReplayFrom(config, isoDate, old(State()), table, analyze, current, lastScan, latest,
                         timeframeMs, scanIntervalMs)
              == Replayed(rest.account, rest.scans + if due then 1 else 0)
    {
      due := current >= lastScan + scanIntervalMs;
      ReplayStep(config, isoDate, State(), table, analyze, current, lastScan, latest, timeframeMs, scanIntervalMs);
      RunTick(table, analyze, current, latest, due);
    }
  }

  /** One turn of the time loop: the tick at `current`, then the rest of
      the loop from the next timeframe. */
  lemma ReplayStep(cfg: Config, isoDate: int -> string, a: Account, table: PairTable,
                   analyze: seq<Candle> -> Option<Indicators>, current: int, lastScan: int, latest: int,
                   tf: int, scanMs: int)
    requires Inv(cfg, a) && PositiveEntries(analyze) && tf > 0 && current <= latest
    requires forall k :: 0 <= k < |table.order| ==> table.order[k] in table.klines
    requires AllCovered(a.positions, table, latest)
    ensures var due := current >= lastScan + scanMs;
            var rest := ReplayFrom(cfg, isoDate, Tick(cfg, isoDate, a, table, analyze, current, latest, due), table,
                                   analyze, current + tf, if due then current else lastScan, latest, tf, scanMs);
            ReplayFrom(cfg, isoDate, a, table, analyze, current, lastScan, latest, tf, scanMs)
            == Replayed(rest.account, rest.scans + if due then 1 else 0)
  {
  }

  lemma PairsOfAppend(ps: seq<Position>, p: Position)
    ensures PairsOf(ps + [p]) == PairsOf(ps) + {p.pair}
  {
    assert forall k :: 0 <= k < |ps| ==> (ps + [p])[k] == ps[k];
    assert (ps + [p])[|ps|] == p;
  }

  lemma CoveredShrinks(ps: seq<Position>, qs: seq<Position>, t: PairTable, latest: int)
    requires AllCovered(ps, t, latest) && PairsOf(qs) <= PairsOf(ps)
    ensures AllCovered(qs, t, latest)
  {
  }
}
