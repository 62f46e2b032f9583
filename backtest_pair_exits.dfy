/** The exit pass of one tick as evidently intended: a pair's candle moves
    the trailing stops of, and tests the exits of, only the positions held
    in that pair.  The engine keeps the pass as written (`AfterExits`), in
    which the candle of whichever held pair is being visited is applied to
    every open position. */
module BacktestPairExits {
  import opened Basics
  import opened BacktestModel
  import opened BacktestAccount
  import opened BacktestEngine

  /** The ratchet applied to the positions of `pair` only. */
  function RatchetedIn(ps: seq<Position>, pair: string, current: real): (r: seq<Position>)
    ensures |r| == |ps|
    ensures forall k :: 0 <= k < |ps| ==> r[k] == if ps[k].pair == pair then Ratchet(ps[k], current) else ps[k]
  {
    seq(|ps|, k requires 0 <= k < |ps| => if ps[k].pair == pair then Ratchet(ps[k], current) else ps[k])
  }

  lemma RatchetedInKeepsInv(cfg: Config, a: Account, pair: string, current: real)
    requires Inv(cfg, a)
    ensures Inv(cfg, a.(positions := RatchetedIn(a.positions, pair, current)))
  {
    var ps := RatchetedIn(a.positions, pair, current);
    forall k | 0 <= k < |ps| ensures Sane(ps[k]) {
      RatchetMonotone(a.positions[k], current);
    }
    SumValuesPointwise(a.positions, ps);
    assert forall k :: 0 <= k < |ps| ==> ps[k].pair == a.positions[k].pair;
  }

  /** The exits the candle triggers among the positions of `pair`. */
  function ExitsIn(ps: seq<Position>, pair: string, candle: Candle): (r: seq<ExitOrder>)
    ensures forall k :: 0 <= k < |r| ==> r[k].pair == pair
    ensures (forall k :: 0 <= k < |ps| ==> Sane(ps[k])) ==> forall k :: 0 <= k < |r| ==> r[k].price > 0.0
  {
    if ps == [] then []
    else
      var p := ps[|ps| - 1];
      var e := ExitFor(p, candle);
      ExitsIn(ps[..|ps| - 1], pair, candle)
      + (if p.pair == pair && e.Some? then [ExitOrder(p.pair, e.value.price, e.value.reason)] else [])
  }

  /** The exit pass for the candle of `pair`: positions held in other pairs
      come out exactly as they went in. */
  function AfterPairExits(cfg: Config, isoDate: int -> string, a: Account, pair: string, candle: Candle): (r: Account)
    requires Inv(cfg, a)
    ensures Inv(cfg, r)
    ensures forall k :: 0 <= k < |a.positions| && a.positions[k].pair != pair ==> a.positions[k] in r.positions
  {
    var ps := RatchetedIn(a.positions, pair, candle.close);
    RatchetedInKeepsInv(cfg, a, pair, candle.close);
    var b := a.(positions := ps);
    var exits := ExitsIn(ps, pair, candle);
    ClosePairsKeepsOthers(cfg, isoDate, b, exits, pair, candle.timestamp);
    ClosePairs(cfg, isoDate, b, exits, candle.timestamp)
  }

  lemma RemoveAtKeeps<T>(s: seq<T>, i: nat, j: nat)
    requires i < |s| && j < |s| && i != j
    ensures s[j] in RemoveAt(s, i)
  {
    if j < i {
      assert RemoveAt(s, i)[j] == s[j];
    } else {
      assert RemoveAt(s, i)[j - 1] == s[j];
    }
  }

  /** Closing exit orders of one pair leaves every position of another pair
      open. */
  lemma {:induction false} ClosePairsKeepsOthers(cfg: Config, isoDate: int -> string, a: Account,
                                                 exits: seq<ExitOrder>, pair: string, timestamp: int)
    requires Inv(cfg, a)
    requires forall k :: 0 <= k < |exits| ==> exits[k].pair == pair && exits[k].price > 0.0
    ensures forall q :: q in a.positions && q.pair != pair ==> q in ClosePairs(cfg, isoDate, a, exits, timestamp).positions
  {
    if exits != [] {
      var init := exits[..|exits| - 1];
      var e := exits[|exits| - 1];
      ClosePairsKeepsOthers(cfg, isoDate, a, init, pair, timestamp);
      var b := ClosePairs(cfg, isoDate, a, init, timestamp);
      var i := PairIndex(b.positions, e.pair);
      if i.Some? {
        forall q | q in b.positions && q.pair != pair
          ensures q in CloseOne(cfg, isoDate, b, e, timestamp).positions
        {
          var j :| 0 <= j < |b.positions| && b.positions[j] == q;
          RemoveAtKeeps(b.positions, i.value, j);
        }
      }
    }
  }

  lemma {:induction false} ExitsInAll(ps: seq<Position>, pair: string, candle: Candle)
    requires forall k :: 0 <= k < |ps| ==> ps[k].pair == pair
    ensures ExitsIn(ps, pair, candle) == ExitsOf(ps, candle)
  {
    if ps != [] {
      ExitsInAll(ps[..|ps| - 1], pair, candle);
    }
  }

  /** When every open position is in the candle's pair, the pass as written
      and the pass as intended agree. */
  lemma AgreeWhenOnlyThatPair(cfg: Config, isoDate: int -> string, a: Account, pair: string, candle: Candle)
    requires Inv(cfg, a) && forall k :: 0 <= k < |a.positions| ==> a.positions[k].pair == pair
    ensures AfterPairExits(cfg, isoDate, a, pair, candle) == AfterExits(cfg, isoDate, a, candle)
  {
    var ps := Ratcheted(a.positions, candle.close);
    assert RatchetedIn(a.positions, pair, candle.close) == ps;
    ExitsInAll(ps, pair, candle);
  }

  /** Below its entry, an inactive position's ratchet changes nothing. */
  lemma RatchetBelowEntry(p: Position, current: real)
    requires Sane(p) && !p.trailingActive && current < p.entryPrice
    ensures Ratchet(p, current) == p
  {
  }

  /** A candle reaching the stop of an inactive position exits it there. */
  lemma OnlyPositionStops(p: Position, candle: Candle)
    requires Sane(p) && !p.trailingActive && candle.low <= p.stopLoss
    ensures ExitsOf([p], candle) == [ExitOrder(p.pair, p.stopLoss, StopLoss)]
  {
    assert [p][..0] == [];
  }

  /** An exit order for the pair of the only open position closes it. */
  lemma ClosingOnlyPosition(cfg: Config, isoDate: int -> string, b: Account, e: ExitOrder, timestamp: int)
    requires Inv(cfg, b) && |b.positions| == 1 && e.pair == b.positions[0].pair && e.price > 0.0
    ensures ClosePairs(cfg, isoDate, b, [e], timestamp).positions == []
  {
    assert [e][..0] == [];
    assert ClosePairs(cfg, isoDate, b, [e], timestamp) == CloseOne(cfg, isoDate, b, e, timestamp);
    assert PairIndex(b.positions, e.pair) == Some(0);
  }

  /** As written, the candle of `pair` closes a position held in another
      pair as soon as the candle's low reaches that position's stop. */
  lemma ForeignCandleClosesPosition(cfg: Config, isoDate: int -> string, a: Account, pair: string, candle: Candle)
    requires Inv(cfg, a) && |a.positions| == 1
    requires a.positions[0].pair != pair && !a.positions[0].trailingActive
    requires candle.close < a.positions[0].entryPrice && candle.low <= a.positions[0].stopLoss
    ensures AfterExits(cfg, isoDate, a, candle).positions == []
  {
    var p := a.positions[0];
    assert Sane(p);
    RatchetBelowEntry(p, candle.close);
    assert Ratcheted(a.positions, candle.close) == [p];
    OnlyPositionStops(p, candle);
    RatchetedKeepsInv(cfg, a, candle.close);
    ClosingOnlyPosition(cfg, isoDate, a.(positions := [p]), ExitOrder(p.pair, p.stopLoss, StopLoss), candle.timestamp);
  }

  /** As intended, that position stays open and untouched. */
  lemma ForeignCandleKeepsPosition(cfg: Config, isoDate: int -> string, a: Account, pair: string, candle: Candle)
    requires Inv(cfg, a) && |a.positions| == 1 && a.positions[0].pair != pair
    ensures AfterPairExits(cfg, isoDate, a, pair, candle).positions == a.positions
  {
    var p := a.positions[0];
    assert RatchetedIn(a.positions, pair, candle.close) == [p];
    assert ExitsIn([p], pair, candle) == [] by {
      assert [p][..0] == [];
    }
  }

  // ---------------------------------------------------------------------
  // One tick's exit pass over the held pairs
  // ---------------------------------------------------------------------

  /** The exit pass of one tick as intended: every held pair with a candle
      at `current` runs the exit check restricted to its own positions. */
  function IntendedExitPass(cfg: Config, isoDate: int -> string, a: Account, table: PairTable, order: seq<string>,
                            current: int): (r: Account)
    requires Inv(cfg, a) && forall k :: 0 <= k < |order| ==> order[k] in table.klines
    ensures Inv(cfg, r)
    decreases |order|
  {
    if order == [] then a
    else
      var candles := At(table.klines[order[0]], current);
      var b := if order[0] in PairsOf(a.positions) && candles != [] then AfterPairExits(cfg, isoDate, a, order[0], candles[0]) else a;
      IntendedExitPass(cfg, isoDate, b, table, order[1..], current)
  }

  /** A candle that neither moves an inactive position's ratchet nor
      reaches its stop or its target. */
  predicate Quiet(p: Position, c: Candle) {
    !p.trailingActive && c.close < p.entryPrice && c.low > p.stopLoss && c.high < p.takeProfit
  }

  lemma QuietCandleNoExit(p: Position, c: Candle)
    requires Sane(p) && Quiet(p, c)
    ensures Ratchet(p, c.close) == p && ExitFor(p, c).None?
  {
  }

  /** Two positions: the candle of the first pair is quiet for the first
      position and reaches the second position's stop. */
  predicate ForeignStopSetup(a: Account, table: PairTable, current: int) {
    |a.positions| == 2
    && table.order == [a.positions[0].pair, a.positions[1].pair]
    && a.positions[0].pair in table.klines && a.positions[1].pair in table.klines
    && var c := At(table.klines[a.positions[0].pair], current);
       c != [] && Quiet(a.positions[0], c[0])
       && !a.positions[1].trailingActive && c[0].close < a.positions[1].entryPrice
       && c[0].low <= a.positions[1].stopLoss
  }

  /** On two positions, a candle quiet for the first that reaches the
      stop of the inactive second closes the second at its stop. */
  lemma TwoPositionsForeignStop(cfg: Config, isoDate: int -> string, a: Account, c: Candle)
    requires Inv(cfg, a) && |a.positions| == 2 && Quiet(a.positions[0], c)
    requires !a.positions[1].trailingActive && c.close < a.positions[1].entryPrice
    requires c.low <= a.positions[1].stopLoss
    ensures AfterExits(cfg, isoDate, a, c) == ClosedAt(cfg, isoDate, a, 1, a.positions[1].stopLoss, StopLoss, c.timestamp)
  {
    var p, q := a.positions[0], a.positions[1];
    assert Sane(p) && Sane(q);
    QuietCandleNoExit(p, c);
    RatchetBelowEntry(q, c.close);
    var ps := Ratcheted(a.positions, c.close);
    assert ps == a.positions;
    assert a.(positions := ps) == a;
    var e := ExitOrder(q.pair, q.stopLoss, StopLoss);
    assert ExitsOf(a.positions[..1], c) == [] by {
      assert a.positions[..1] == [p] && [p][..0] == [];
    }
    assert ExitsOf(a.positions, c) == [e];
    assert PairIndex(a.positions, q.pair) == Some(1);
    assert ClosePairs(cfg, isoDate, a, [e], c.timestamp) == CloseOne(cfg, isoDate, a, e, c.timestamp) by {
      assert [e][..0] == [];
    }
  }

  /** As written, the first pair's candle closes the second pair's
      position at its stop, whatever the second pair's own candle says. */
  lemma ForeignCandleInExitPass(cfg: Config, isoDate: int -> string, a: Account, table: PairTable, current: int)
    requires Inv(cfg, a) && ForeignStopSetup(a, table, current)
    ensures ExitPass(cfg, isoDate, a, table, table.order, current).positions == [a.positions[0]]
    ensures ExitPass(cfg, isoDate, a, table, table.order, current).closedTrades
            == a.closedTrades + [CloseTrade(cfg, a.positions[1], a.positions[1].stopLoss, StopLoss,
                                            At(table.klines[a.positions[0].pair], current)[0].timestamp)]
  {
    var p, q := a.positions[0], a.positions[1];
    var c := At(table.klines[p.pair], current)[0];
    TwoPositionsForeignStop(cfg, isoDate, a, c);
    var b := AfterExits(cfg, isoDate, a, c);
    assert b.positions == [p];
    assert p.pair != q.pair;
    assert q.pair !in PairsOf(b.positions);
    assert p.pair in PairsOf(a.positions);
    var rest := table.order[1..];
    assert rest == [q.pair] && rest[1..] == [];
    assert ExitPass(cfg, isoDate, b, table, rest, current) == b;
  }

  /** The intended check for the pair of position `i` of two, on a candle
      quiet for it, changes nothing. */
  lemma PairQuietKeeps(cfg: Config, isoDate: int -> string, a: Account, i: nat, c: Candle)
    requires Inv(cfg, a) && |a.positions| == 2 && i < 2 && Quiet(a.positions[i], c)
    ensures AfterPairExits(cfg, isoDate, a, a.positions[i].pair, c) == a
  {
    var pair := a.positions[i].pair;
    var p, q := a.positions[0], a.positions[1];
    assert Sane(a.positions[i]);
    QuietCandleNoExit(a.positions[i], c);
    assert p.pair != q.pair;
    var ps := RatchetedIn(a.positions, pair, c.close);
    assert ps == a.positions;
    assert a.(positions := ps) == a;
    assert ExitsIn(a.positions[..1], pair, c) == [] by {
      assert a.positions[..1] == [p] && [p][..0] == [];
    }
    assert ExitsIn(a.positions, pair, c) == [];
  }

  /** As intended, the same tick leaves both positions open when the
      second pair has no candle at this tick or a quiet one. */
  lemma ForeignCandleInIntendedPass(cfg: Config, isoDate: int -> string, a: Account, table: PairTable, current: int)
    requires Inv(cfg, a) && ForeignStopSetup(a, table, current)
    requires var d := At(table.klines[a.positions[1].pair], current);
             d == [] || Quiet(a.positions[1], d[0])
    ensures IntendedExitPass(cfg, isoDate, a, table, table.order, current) == a
  {
    var p, q := a.positions[0], a.positions[1];
    var c := At(table.klines[p.pair], current)[0];
    PairQuietKeeps(cfg, isoDate, a, 0, c);
    assert p.pair in PairsOf(a.positions) && q.pair in PairsOf(a.positions);
    var d := At(table.klines[q.pair], current);
    if d != [] {
      PairQuietKeeps(cfg, isoDate, a, 1, d[0]);
    }
    var rest := table.order[1..];
    assert rest == [q.pair] && rest[1..] == [];
    assert IntendedExitPass(cfg, isoDate, a, table, rest, current) == a;
  }
}
