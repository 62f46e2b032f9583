/** The sync script: the open trades of the database become the positions
    file of the monitor, one position per trade, with a default stop 2% below
    and target 3% above the entry where the trade has none.  The database
    query is an input and the file write is the result. */
module SyncPositions {
  import opened Basics

  /** An open trade as the database returns it (the columns the script
      reads; stop and target may be NULL). */
  datatype OpenTrade = OpenTrade(
    tradeId: string,
    pair: string,
    entryPrice: real,
    quantity: real,
    stopLoss: Option<real>,
    takeProfit: Option<real>,
    entryTime: string)

  /** A position in the monitor's file format. */
  datatype SyncedPosition = SyncedPosition(
    tradeId: string,
    pair: string,
    entry: real,
    quantity: real,
    stopLoss: real,
    takeProfit: real,
    openedAt: string,
    id: string)

  /** `v if v else fallback`: NULL and zero both take the fallback. */
  function OrDefault(v: Option<real>, fallback: real): (r: real)
    ensures v.Some? && v.value != 0.0 ==> r == v.value
    ensures v.None? || v.value == 0.0 ==> r == fallback
  {
    if v.Some? && v.value != 0.0 then v.value else fallback
  }

  /** The position written for one trade. */
  function Convert(t: OpenTrade): (p: SyncedPosition)
    ensures p.id == t.tradeId && p.tradeId == t.tradeId
    ensures p.pair == t.pair && p.entry == t.entryPrice && p.quantity == t.quantity
    ensures p.openedAt == t.entryTime
    ensures p.stopLoss == OrDefault(t.stopLoss, t.entryPrice * 0.98)
    ensures p.takeProfit == OrDefault(t.takeProfit, t.entryPrice * 1.03)
  {
    var entry := t.entryPrice;
    SyncedPosition(t.tradeId, t.pair, entry, t.quantity,
                   OrDefault(t.stopLoss, entry * 0.98), OrDefault(t.takeProfit, entry * 1.03),
                   t.entryTime, t.tradeId)
  }

  /** A trade without its own levels gets a stop below and a target above a
      positive entry. */
  lemma DefaultLevelsBracketEntry(t: OpenTrade)
    requires t.entryPrice > 0.0 && t.stopLoss.None? && t.takeProfit.None?
    ensures Convert(t).stopLoss < t.entryPrice < Convert(t).takeProfit
    ensures Convert(t).stopLoss == t.entryPrice * 0.98 && Convert(t).takeProfit == t.entryPrice * 1.03
  {
  }

  function ConvertAll(ts: seq<OpenTrade>): (r: seq<SyncedPosition>)
    ensures |r| == |ts|
    ensures forall i :: 0 <= i < |ts| ==> r[i] == Convert(ts[i])
  {
    if ts == [] then [] else ConvertAll(ts[..|ts| - 1]) + [Convert(ts[|ts| - 1])]
  }

  /** The summary printed for a trade divides by the entry and by the risk,
      so it raises unless the entry is non-zero and the stop differs from it. */
  predicate Displayable(t: OpenTrade) {
    Printable(Convert(t))
  }

  predicate Printable(p: SyncedPosition) {
    p.entry != 0.0 && p.stopLoss != p.entry
  }

  /** The first trade whose summary raises is the one the loop stops at. */
  lemma FirstUndisplayableAt(ts: seq<OpenTrade>, i: nat)
    requires i < |ts| && !Displayable(ts[i])
    requires forall k :: 0 <= k < i ==> Displayable(ts[k])
    ensures FirstUndisplayable(ts) == Some(i)
  {
  }

  /** Index of the first trade whose summary raises. */
  function FirstUndisplayable(ts: seq<OpenTrade>): (r: Option<nat>)
    ensures r.Some? ==> r.value < |ts| && !Displayable(ts[r.value])
                        && forall i :: 0 <= i < r.value ==> Displayable(ts[i])
    ensures r.None? ==> forall i :: 0 <= i < |ts| ==> Displayable(ts[i])
  {
    if ts == [] then None
    else if !Displayable(ts[0]) then Some(0)
    else
      var rest := FirstUndisplayable(ts[1..]);
      if rest.None? then None else Some(rest.value + 1)
  }

  /** What a run of the script ends with. */
  datatype SyncOutcome =
    | NothingToSync
    | Aborted(failedAt: nat)
    | Written(positions: seq<SyncedPosition>)

  /** `sync_positions` as written: nothing is written without open trades;
      an exception in a trade's summary ends the script before the file is
      written; otherwise the file holds one position per trade, in order. */
  function SyncResult(ts: seq<OpenTrade>): (r: SyncOutcome)
    ensures r == NothingToSync <==> ts == []
    ensures r.Written? ==> r.positions == ConvertAll(ts) && forall i :: 0 <= i < |ts| ==> Displayable(ts[i])
    ensures r.Aborted? <==> ts != [] && exists i :: 0 <= i < |ts| && !Displayable(ts[i])
  {
    if ts == [] then NothingToSync
    else
      var bad := FirstUndisplayable(ts);
      if bad.Some? then Aborted(bad.value) else Written(ConvertAll(ts))
  }

  /** A trade whose stored stop equals its entry (a break-even stop) stops
      the whole sync: nothing is written for any trade. */
  lemma BreakEvenStopAbortsSync()
    ensures SyncResult([OpenTrade("T1", "BTC_USDT", 100.0, 1.0, Some(100.0), Some(110.0), "2024-01-01")])
            == Aborted(0)
  {
    var t := OpenTrade("T1", "BTC_USDT", 100.0, 1.0, Some(100.0), Some(110.0), "2024-01-01");
    assert !Displayable(t);
  }

  /** The sync as evidently intended: the printed summary does not decide
      what is written, so every open trade reaches the file. */
  function IntendedSyncResult(ts: seq<OpenTrade>): (r: SyncOutcome)
    ensures r == NothingToSync <==> ts == []
    ensures ts != [] ==> r == Written(ConvertAll(ts))
  {
    if ts == [] then NothingToSync else Written(ConvertAll(ts))
  }

  /** The two agree whenever every summary can be printed. */
  lemma IntendedAgreesWhenDisplayable(ts: seq<OpenTrade>)
    requires forall i :: 0 <= i < |ts| ==> Displayable(ts[i])
    ensures SyncResult(ts) == IntendedSyncResult(ts)
  {
  }

  /** The intended sync writes exactly one position per trade, keyed by the
      trade id, and keeps the trades' order. */
  lemma {:induction false} IntendedSyncShape(ts: seq<OpenTrade>)
    requires ts != []
    ensures IntendedSyncResult(ts).Written?
    ensures |IntendedSyncResult(ts).positions| == |ts|
    ensures forall i :: 0 <= i < |ts| ==>
              IntendedSyncResult(ts).positions[i].id == ts[i].tradeId
              && IntendedSyncResult(ts).positions[i].entry == ts[i].entryPrice
  {
  }

  /** The conversion step of the loop. */
  lemma ConvertStep(ts: seq<OpenTrade>, i: nat)
    requires i < |ts|
    ensures ConvertAll(ts[..i + 1]) == ConvertAll(ts[..i]) + [Convert(ts[i])]
  {
    assert ts[..i + 1][..i] == ts[..i];
  }

  /** The conversion in the loop body, with the fallback levels. */
  method ConvertTrade(trade: OpenTrade) returns (position: SyncedPosition)
    ensures position == Convert(trade)
  {
    var entry := trade.entryPrice;
    var stopLoss := if trade.stopLoss.Some? && trade.stopLoss.value != 0.0 then trade.stopLoss.value else entry * 0.98;
    var takeProfit := if trade.takeProfit.Some? && trade.takeProfit.value != 0.0 then trade.takeProfit.value else entry * 1.03;
    position := SyncedPosition(trade.tradeId, trade.pair, entry, trade.quantity, stopLoss, takeProfit,
                               trade.entryTime, trade.tradeId);
  }

  /** `sync_positions` as written, given the open trades of the query. */
  method Sync(trades: seq<OpenTrade>) returns (outcome: SyncOutcome)
    ensures outcome == SyncResult(trades)
  {
    if trades == [] {
      return NothingToSync;
    }
    var positions: seq<SyncedPosition> := [];
    var i := 0;
    while i < |trades|
      invariant 0 <= i <= |trades|
      invariant positions == ConvertAll(trades[..i])
      invariant forall k :: 0 <= k < i ==> Displayable(trades[k])
    {
      var position := ConvertTrade(trades[i]);
      ConvertStep(trades, i);
      positions := positions + [position];
      if !Printable(position) {
        FirstUndisplayableAt(trades, i);
        return Aborted(i);
      }
      i := i + 1;
    }
    assert trades[..i] == trades;
    outcome := Written(positions);
  }
}
