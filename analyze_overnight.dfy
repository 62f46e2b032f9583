/** The overnight report: statistics over the trades closed in the look-back
    window, unrealised P&L of the positions still open, and the overall total.
    The database query, the positions file and the price lookups are inputs;
    the printed report is left out. */
module OvernightAnalysis {
  import opened Basics
  import Ranking

  // ---------------------------------------------------------------------
  // analyze_closed_trades
  // ---------------------------------------------------------------------

  /** A row of the closed-trades query, in the query's column order; every
      column may be NULL except the ids and times the database fills in. */
  datatype ClosedTrade = ClosedTrade(
    tradeId: string,
    pair: string,
    entryPrice: Option<real>,
    exitPrice: Option<real>,
    quantity: Option<real>,
    pnl: Option<real>,
    pnlPct: Option<real>,
    entryTime: string,
    exitTime: string,
    confidence: Option<int>,
    paper: Option<bool>)

  /** `t['pnl'] or 0`: NULL and zero both read as zero. */
  function PnlOrZero(t: ClosedTrade): (r: real)
    ensures r != 0.0 <==> t.pnl.Some? && t.pnl.value != 0.0
    ensures r != 0.0 ==> r == t.pnl.value
  {
    if t.pnl.Some? && t.pnl.value != 0.0 then t.pnl.value else 0.0
  }

  /** `t[5] and t[5] > 0` */
  predicate IsWin(t: ClosedTrade) {
    t.pnl.Some? && t.pnl.value != 0.0 && t.pnl.value > 0.0
  }

  function SumPnl(ts: seq<ClosedTrade>): real {
    if ts == [] then 0.0 else SumPnl(ts[..|ts| - 1]) + PnlOrZero(ts[|ts| - 1])
  }

  function WinCount(ts: seq<ClosedTrade>): (r: nat)
    ensures r <= |ts|
  {
    if ts == [] then 0 else WinCount(ts[..|ts| - 1]) + (if IsWin(ts[|ts| - 1]) then 1 else 0)
  }

  datatype ClosedStats = ClosedStats(
    totalTrades: nat,
    trades: seq<ClosedTrade>,
    totalPnl: real,
    avgPnl: real,
    wins: nat,
    losses: nat,
    winRate: real,
    best: Option<ClosedTrade>,
    worst: Option<ClosedTrade>)

  /** The statistics `analyze_closed_trades` returns for the query's rows:
      zeros and no best or worst trade for an empty window; otherwise every
      row is listed, each is a win or a loss, the averages are per trade and
      the best and worst trades are the first with the highest and lowest
      P&L. */
  function ClosedSummary(rows: seq<ClosedTrade>): (r: ClosedStats)
    ensures rows == [] ==> r == ClosedStats(0, [], 0.0, 0.0, 0, 0, 0.0, None, None)
    ensures r.totalTrades == |rows| && r.trades == rows
    ensures r.wins == WinCount(rows) && r.wins + r.losses == |rows|
    ensures r.totalPnl == SumPnl(rows)
    ensures rows != [] ==> r.avgPnl == PerItem(r.totalPnl, |rows|) && r.winRate == Percent(r.wins, |rows|)
    ensures r.best.Some? <==> rows != []
    ensures r.worst.Some? <==> rows != []
    ensures r.best.Some? ==> r.best.value in rows
                             && forall i :: 0 <= i < |rows| ==> PnlOrZero(rows[i]) <= PnlOrZero(r.best.value)
    ensures r.worst.Some? ==> r.worst.value in rows
                              && forall i :: 0 <= i < |rows| ==> PnlOrZero(r.worst.value) <= PnlOrZero(rows[i])
  {
    if rows == [] then ClosedStats(0, [], 0.0, 0.0, 0, 0, 0.0, None, None)
    else
      var wins := WinCount(rows);
      var best := rows[Ranking.FirstArgMax(rows, PnlOrZero)];
      var worst := rows[Ranking.FirstArgMin(rows, PnlOrZero)];
      ClosedStats(|rows|, rows, SumPnl(rows), PerItem(SumPnl(rows), |rows|), wins, |rows| - wins,
                  Percent(wins, |rows|), Some(best), Some(worst))
  }

  /** Ties go to the earliest row: every row before the best trade has a
      strictly lower P&L, every row before the worst one a strictly higher. */
  lemma BestAndWorstAreFirst(rows: seq<ClosedTrade>)
    requires rows != []
    ensures exists k :: 0 <= k < |rows| && rows[k] == ClosedSummary(rows).best.value
                        && forall i :: 0 <= i < k ==> PnlOrZero(rows[i]) < PnlOrZero(rows[k])
    ensures exists k :: 0 <= k < |rows| && rows[k] == ClosedSummary(rows).worst.value
                        && forall i :: 0 <= i < k ==> PnlOrZero(rows[k]) < PnlOrZero(rows[i])
  {
    var hi := Ranking.FirstArgMax(rows, PnlOrZero);
    var lo := Ranking.FirstArgMin(rows, PnlOrZero);
    assert rows[hi] == ClosedSummary(rows).best.value;
    assert rows[lo] == ClosedSummary(rows).worst.value;
  }

  /** A window without a single winning trade made no profit. */
  lemma {:induction false} NoWinsNoProfit(ts: seq<ClosedTrade>)
    requires WinCount(ts) == 0
    ensures SumPnl(ts) <= 0.0
  {
    if ts != [] {
      NoWinsNoProfit(ts[..|ts| - 1]);
    }
  }

  /** A window of winning trades only made a profit. */
  lemma {:induction false} AllWinsProfit(ts: seq<ClosedTrade>)
    requires ts != [] && WinCount(ts) == |ts|
    ensures SumPnl(ts) > 0.0
  {
    if |ts| > 1 {
      AllWinsProfit(ts[..|ts| - 1]);
    }
  }

  /** One more row of the loop. */
  lemma ClosedStep(rows: seq<ClosedTrade>, i: nat)
    requires i < |rows|
    ensures SumPnl(rows[..i + 1]) == SumPnl(rows[..i]) + PnlOrZero(rows[i])
    ensures WinCount(rows[..i + 1]) == WinCount(rows[..i]) + (if IsWin(rows[i]) then 1 else 0)
  {
    assert rows[..i + 1][..i] == rows[..i];
  }

  /** `analyze_closed_trades`, given the rows of the query. */
  method AnalyzeClosedTrades(rows: seq<ClosedTrade>) returns (stats: ClosedStats)
    ensures stats == ClosedSummary(rows)
  {
    if rows == [] {
      return ClosedStats(0, [], 0.0, 0.0, 0, 0, 0.0, None, None);
    }
    var tradeList: seq<ClosedTrade> := [];
    var totalPnl := 0.0;
    var wins := 0;
    var losses := 0;
    var i := 0;
    while i < |rows|
      invariant 0 <= i <= |rows|
      invariant tradeList == rows[..i]
      invariant totalPnl == SumPnl(rows[..i])
      invariant wins == WinCount(rows[..i]) && wins + losses == i
    {
      var t := rows[i];
      ClosedStep(rows, i);
      tradeList := tradeList + [t];
      totalPnl := totalPnl + (if t.pnl.Some? && t.pnl.value != 0.0 then t.pnl.value else 0.0);
      if t.pnl.Some? && t.pnl.value != 0.0 && t.pnl.value > 0.0 {
        wins := wins + 1;
      } else {
        losses := losses + 1;
      }
      i := i + 1;
    }
    assert rows[..i] == rows;
    var n := |rows| as real;
    var winRate := ((wins as real) / n) * 100.0;
    var avgPnl := totalPnl / n;
    assert winRate == Percent(wins, |rows|);
    var best := tradeList[Ranking.FirstArgMax(tradeList, PnlOrZero)];
    var worst := tradeList[Ranking.FirstArgMin(tradeList, PnlOrZero)];
    stats := ClosedStats(|rows|, tradeList, totalPnl, avgPnl, wins, losses, winRate, Some(best), Some(worst));
  }

  // ---------------------------------------------------------------------
  // analyze_open_positions
  // ---------------------------------------------------------------------

  /** A position of the positions file, with the keys the report reads. */
  datatype OpenPosition = OpenPosition(
    pair: string,
    entry: real,
    quantity: real,
    stopLoss: Option<real>,
    takeProfit: Option<real>,
    openedAt: Option<string>,
    trailingActive: Option<bool>,
    trailingStop: Option<real>)

  datatype PositionStat = PositionStat(
    pair: string,
    entry: real,
    current: Option<real>,
    quantity: real,
    unrealizedPnl: real,
    unrealizedPct: real,
    stopLoss: Option<real>,
    takeProfit: Option<real>,
    openedAt: Option<string>,
    trailingActive: bool,
    trailingStop: Option<real>)

  /** `if current_price:` -- a missing price and a price of zero both count
      as no price. */
  predicate HasPrice(price: Option<real>) {
    price.Some? && price.value != 0.0
  }

  /** Every priced position has a non-zero entry (the percentage divides by
      it and would raise). */
  predicate Priceable(ps: seq<OpenPosition>, priceAt: nat -> Option<real>) {
    forall k :: 0 <= k < |ps| ==> HasPrice(priceAt(k)) ==> ps[k].entry != 0.0
  }

  /** The report line for the k-th position, priced at `price`. */
  function StatOf(p: OpenPosition, price: Option<real>): (s: PositionStat)
    requires HasPrice(price) ==> p.entry != 0.0
    ensures s.current == price && s.pair == p.pair && s.entry == p.entry && s.quantity == p.quantity
    ensures HasPrice(price) ==> s.unrealizedPnl == (price.value - p.entry) * p.quantity
                                && s.unrealizedPct * p.entry == (price.value - p.entry) * 100.0
    ensures !HasPrice(price) ==> s.unrealizedPnl == 0.0 && s.unrealizedPct == 0.0
    ensures s.trailingActive == p.trailingActive.GetOr(false)
  {
    var pnl := if HasPrice(price) then (price.value - p.entry) * p.quantity else 0.0;
    var pct := if HasPrice(price) then ((price.value - p.entry) / p.entry) * 100.0 else 0.0;
    PositionStat(p.pair, p.entry, price, p.quantity, pnl, pct, p.stopLoss, p.takeProfit,
                 p.openedAt, p.trailingActive.GetOr(false), p.trailingStop)
  }

  function StatsOf(ps: seq<OpenPosition>, priceAt: nat -> Option<real>): (r: seq<PositionStat>)
    requires Priceable(ps, priceAt)
    ensures |r| == |ps|
    ensures forall k :: 0 <= k < |ps| ==> r[k] == StatOf(ps[k], priceAt(k))
  {
    if ps == [] then []
    else
      var n := |ps| - 1;
      StatsOf(ps[..n], priceAt) + [StatOf(ps[n], priceAt(n))]
  }

  function SumUnrealized(stats: seq<PositionStat>): real {
    if stats == [] then 0.0 else SumUnrealized(stats[..|stats| - 1]) + stats[|stats| - 1].unrealizedPnl
  }

  function UnrealizedOf(s: PositionStat): real {
    s.unrealizedPnl
  }

  datatype OpenStats = OpenStats(
    totalPositions: nat,
    positions: seq<PositionStat>,
    totalUnrealized: real,
    best: Option<PositionStat>,
    worst: Option<PositionStat>)

  /** The statistics `analyze_open_positions` returns. */
  function OpenSummary(ps: seq<OpenPosition>, priceAt: nat -> Option<real>): (r: OpenStats)
    requires Priceable(ps, priceAt)
    ensures ps == [] ==> r == OpenStats(0, [], 0.0, None, None)
    ensures r.totalPositions == |ps| && r.positions == StatsOf(ps, priceAt)
    ensures r.totalUnrealized == SumUnrealized(r.positions)
    ensures r.best.Some? <==> ps != []
    ensures r.worst.Some? <==> ps != []
    ensures r.best.Some? ==> r.best.value in r.positions
                             && forall i :: 0 <= i < |ps| ==> r.positions[i].unrealizedPnl <= r.best.value.unrealizedPnl
    ensures r.worst.Some? ==> r.worst.value in r.positions
                              && forall i :: 0 <= i < |ps| ==> r.worst.value.unrealizedPnl <= r.positions[i].unrealizedPnl
  {
    if ps == [] then OpenStats(0, [], 0.0, None, None)
    else
      var stats := StatsOf(ps, priceAt);
      assert |stats| == |ps|;
      var best := Ranking.FirstArgMax(stats, UnrealizedOf);
      var worst := Ranking.FirstArgMin(stats, UnrealizedOf);
      OpenStats(|ps|, stats, SumUnrealized(stats), Some(stats[best]), Some(stats[worst]))
  }

  /** Without a single usable price there is no unrealised P&L. */
  lemma {:induction false} NoPricesNoUnrealized(ps: seq<OpenPosition>, priceAt: nat -> Option<real>)
    requires Priceable(ps, priceAt)
    requires forall k :: 0 <= k < |ps| ==> !HasPrice(priceAt(k))
    ensures SumUnrealized(StatsOf(ps, priceAt)) == 0.0
  {
    if ps != [] {
      var n := |ps| - 1;
      assert Priceable(ps[..n], priceAt);
      NoPricesNoUnrealized(ps[..n], priceAt);
      var r := StatsOf(ps, priceAt);
      assert r[..n] == StatsOf(ps[..n], priceAt);
    }
  }

  /** One more position of the loop. */
  lemma OpenStep(ps: seq<OpenPosition>, priceAt: nat -> Option<real>, i: nat)
    requires Priceable(ps, priceAt) && i < |ps|
    ensures Priceable(ps[..i], priceAt) && Priceable(ps[..i + 1], priceAt)
    ensures StatsOf(ps[..i + 1], priceAt) == StatsOf(ps[..i], priceAt) + [StatOf(ps[i], priceAt(i))]
  {
    assert ps[..i + 1][..i] == ps[..i];
  }

  /** The loop body for one position: the unrealised P&L and percentage at
      the current price, both zero without a usable price. */
  method PositionLine(pos: OpenPosition, current: Option<real>) returns (stat: PositionStat)
    requires HasPrice(current) ==> pos.entry != 0.0
    ensures stat == StatOf(pos, current)
  {
    var unrealizedPnl := 0.0;
    var unrealizedPct := 0.0;
    if current.Some? && current.value != 0.0 {
      unrealizedPnl := (current.value - pos.entry) * pos.quantity;
      unrealizedPct := ((current.value - pos.entry) / pos.entry) * 100.0;
    }
    stat := PositionStat(pos.pair, pos.entry, current, pos.quantity, unrealizedPnl, unrealizedPct,
                         pos.stopLoss, pos.takeProfit, pos.openedAt, pos.trailingActive.GetOr(false),
                         pos.trailingStop);
  }

  /** `analyze_open_positions`: `priceAt(k)` is what the price lookup gives
      for the k-th position (None without an exchange connection or when the
      lookup fails). */
  method AnalyzeOpenPositions(ps: seq<OpenPosition>, priceAt: nat -> Option<real>) returns (stats: OpenStats)
    requires Priceable(ps, priceAt)
    ensures stats == OpenSummary(ps, priceAt)
  {
    if ps == [] {
      return OpenStats(0, [], 0.0, None, None);
    }
    var positionStats: seq<PositionStat> := [];
    var totalUnrealized := 0.0;
    var i := 0;
    while i < |ps|
      invariant 0 <= i <= |ps|
      invariant Priceable(ps[..i], priceAt)
      invariant positionStats == StatsOf(ps[..i], priceAt)
      invariant totalUnrealized == SumUnrealized(positionStats)
    {
      OpenStep(ps, priceAt, i);
      var stat := PositionLine(ps[i], priceAt(i));
      var unrealizedPnl := stat.unrealizedPnl;
      assert (positionStats + [stat])[..i] == positionStats;
      positionStats := positionStats + [stat];
      totalUnrealized := totalUnrealized + unrealizedPnl;
      i := i + 1;
    }
    assert ps[..i] == ps;
    var best := positionStats[Ranking.FirstArgMax(positionStats, UnrealizedOf)];
    var worst := positionStats[Ranking.FirstArgMin(positionStats, UnrealizedOf)];
    stats := OpenStats(|ps|, positionStats, totalUnrealized, Some(best), Some(worst));
  }

  // ---------------------------------------------------------------------
  // run: the overall total
  // ---------------------------------------------------------------------

  /** The overall P&L of the report: realised plus unrealised. */
  function OverallPnl(closed: ClosedStats, open: OpenStats): real {
    closed.totalPnl + open.totalUnrealized
  }

  /** The overall total is the sum of the closed trades' P&L (NULL as zero)
      and of the open positions' unrealised P&L at their prices. */
  lemma {:induction false} OverallPnlIsSum(rows: seq<ClosedTrade>, ps: seq<OpenPosition>, priceAt: nat -> Option<real>,
                                           closed: ClosedStats, open: OpenStats)
    requires Priceable(ps, priceAt)
    requires closed == ClosedSummary(rows) && open == OpenSummary(ps, priceAt)
    ensures OverallPnl(closed, open) == SumPnl(rows) + SumUnrealized(StatsOf(ps, priceAt))
  {
  }
}
