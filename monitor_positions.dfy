/** The position monitor: every open position is checked against the current
    price (ratcheting its trailing stop and deciding an exit), and exits are
    then closed, updating the session statistics.  Prices, the trailing-stop
    answers of the risk manager, order replies and the clock are inputs;
    Telegram, database and file writes have no effect on the modelled state. */
module PositionMonitor {
  import opened Basics
  import opened Text

  /** One monitored position.  The optional fields are keys that a stored
      position may or may not carry. */
  datatype Position = Position(
    pair: string,
    entry: real,
    quantity: real,
    stopLoss: real,
    takeProfit: real,
    id: string,
    tradeId: Option<string>,
    openedAt: Option<string>,
    trailingActive: Option<bool>,
    trailingStop: Option<real>)

  /** `position.get('trailing_active', False)` */
  predicate TrailingActive(p: Position) {
    p.trailingActive.GetOr(false)
  }

  /** `position.get('trailing_stop', stop_loss)` */
  function EffectiveStop(p: Position): real {
    p.trailingStop.GetOr(p.stopLoss)
  }

  /** `position.get('trade_id', position['id'])` */
  function TradeIdOf(p: Position): string {
    p.tradeId.GetOr(p.id)
  }

  /** What a check learns for a position: no price, or the price together with
      the trailing-stop rule's answer (activate, new stop) for it. */
  datatype PriceAnswer =
    | NoPrice
    | Priced(current: real, activate: bool, newStop: real)

  datatype ExitReason = StopLossHit | TakeProfitHit

  datatype ExitSignal = ExitSignal(
    position: Position,
    reason: ExitReason,
    exitPrice: real,
    pnlUsdt: real,
    pnlPct: real)

  // ---------------------------------------------------------------------
  // check_position
  // ---------------------------------------------------------------------

  /** The trailing-stop update of `check_position`: an inactive stop is
      activated at the rule's new stop; an active one only moves to a
      strictly higher stop. */
  function Ratchet(p: Position, activate: bool, newStop: real): (q: Position)
    ensures q.(trailingActive := p.trailingActive, trailingStop := p.trailingStop) == p
    ensures !TrailingActive(p) ==> (TrailingActive(q) <==> activate)
    ensures !TrailingActive(p) && activate ==> EffectiveStop(q) == newStop
    ensures TrailingActive(p) ==> TrailingActive(q)
    ensures TrailingActive(p) ==> EffectiveStop(q) == (if activate && newStop > EffectiveStop(p) then newStop else EffectiveStop(p))
  {
    if !TrailingActive(p) then
      if activate then p.(trailingActive := Some(true), trailingStop := Some(newStop)) else p
    else if activate && newStop > EffectiveStop(p) then p.(trailingStop := Some(newStop))
    else p
  }

  function CheckedPosition(p: Position, a: PriceAnswer): Position {
    match a
    case NoPrice => p
    case Priced(current, activate, newStop) => Ratchet(p, activate, newStop)
  }

  /** The exit rule: the stop is tested first and exits at the stop; the take
      profit exits at the target. */
  function ExitDecision(current: real, stop: real, target: real): (r: Option<(ExitReason, real)>)
    ensures r == Some((StopLossHit, stop)) <==> current <= stop
    ensures r == Some((TakeProfitHit, target)) <==> stop < current && target <= current
    ensures r.None? <==> stop < current < target
  {
    if current <= stop then Some((StopLossHit, stop))
    else if current >= target then Some((TakeProfitHit, target))
    else None
  }

  /** The exit signal `check_position` returns.  The P&L divides by the entry
      price, which raises for a zero entry. */
  function SignalFor(p: Position, a: PriceAnswer): Option<ExitSignal>
    requires a.Priced? ==> p.entry != 0.0
  {
    match a
    case NoPrice => None
    case Priced(current, _, _) =>
      var q := CheckedPosition(p, a);
      var exit := ExitDecision(current, EffectiveStop(q), q.takeProfit);
      if exit.None? then None
      else Some(ExitSignal(q, exit.value.0, exit.value.1, (current - p.entry) * p.quantity,
                           ((current - p.entry) / p.entry) * 100.0))
  }

  /** Once active, the monitor's trailing stop stays active and never moves
      down, whatever the rule answers. */
  lemma ActiveStopNeverLowers(p: Position, a: PriceAnswer)
    requires TrailingActive(p)
    ensures TrailingActive(CheckedPosition(p, a))
    ensures EffectiveStop(CheckedPosition(p, a)) >= EffectiveStop(p)
  {
  }

  /** A check changes the position only in its trailing fields, and not at
      all without a price. */
  lemma CheckChangesOnlyTrailing(p: Position, a: PriceAnswer)
    ensures CheckedPosition(p, a).(trailingActive := p.trailingActive, trailingStop := p.trailingStop) == p
    ensures a.NoPrice? ==> CheckedPosition(p, a) == p
  {
  }

  /** A signal reports the stop when the price is at or below the effective
      stop, and the target otherwise; its P&L is the unrealised one. */
  lemma SignalMeaning(p: Position, a: PriceAnswer)
    requires a.Priced? && p.entry != 0.0
    ensures var q := CheckedPosition(p, a);
            var s := SignalFor(p, a);
            (s.Some? && s.value.reason == StopLossHit <==> a.current <= EffectiveStop(q))
            && (s.Some? && s.value.reason == TakeProfitHit <==> EffectiveStop(q) < a.current && q.takeProfit <= a.current)
            && (s.None? <==> EffectiveStop(q) < a.current < q.takeProfit)
            && (s.Some? ==> s.value.position == q)
            && (s.Some? ==> s.value.exitPrice == (if s.value.reason == StopLossHit then EffectiveStop(q) else q.takeProfit))
            && (s.Some? ==> s.value.pnlUsdt == (a.current - p.entry) * p.quantity
                            && s.value.pnlPct * p.entry == (a.current - p.entry) * 100.0)
  {
  }

  // ---------------------------------------------------------------------
  // calculate_duration
  // ---------------------------------------------------------------------

  /** Whole hours and remaining whole minutes of an elapsed time in seconds,
      as Python's `//` and `%` on floats give them. */
  function DurationParts(seconds: real): (hm: (int, int))
    ensures 0 <= hm.1 < 60
    ensures (3600 * hm.0 + 60 * hm.1) as real <= seconds < (3600 * hm.0 + 60 * hm.1 + 60) as real
  {
    var hours := (seconds / 3600.0).Floor;
    var rest := seconds - (3600 * hours) as real;
    var minutes := (rest / 60.0).Floor;
    (hours, minutes)
  }

  /** `calculate_duration`: "Hh Mm" when at least an hour has passed,
      otherwise "Mm"; None when the opening time could not be read. */
  function Duration(elapsed: Option<real>): (r: Option<string>)
    ensures r.None? <==> elapsed.None?
    ensures r.Some? && DurationParts(elapsed.value).0 > 0 ==>
              r.value == IntToString(DurationParts(elapsed.value).0) + "h "
                         + IntToString(DurationParts(elapsed.value).1) + "m"
    ensures r.Some? && DurationParts(elapsed.value).0 <= 0 ==>
              r.value == IntToString(DurationParts(elapsed.value).1) + "m"
  {
    match elapsed
    case None => None
    case Some(seconds) =>
      var hm := DurationParts(seconds);
      if hm.0 > 0 then Some(IntToString(hm.0) + "h " + IntToString(hm.1) + "m")
      else Some(IntToString(hm.1) + "m")
  }

  /** 2 h 15 min 30 s reads "2h 15m"; 45 min reads "45m"; an unreadable
      opening time gives no text. */
  lemma DurationExamples()
    ensures DurationParts(8130.0) == (2, 15)
    ensures DurationParts(2700.0) == (0, 45)
    ensures Duration(Some(8130.0)) == Some("2h 15m")
    ensures Duration(Some(2700.0)) == Some("45m")
    ensures Duration(None) == None
  {
    assert IntToString(2) == "2";
    assert IntToString(15) == "15" by {
      assert NatToString(15) == NatToString(1) + [DigitChar(5)];
    }
    assert IntToString(45) == "45" by {
      assert NatToString(45) == NatToString(4) + [DigitChar(5)];
    }
    assert DurationParts(8130.0) == (2, 15);
    assert "2" + "h " + "15" + "m" == "2h 15m";
    assert DurationParts(2700.0) == (0, 45);
    assert "45" + "m" == "45m";
  }

  // ---------------------------------------------------------------------
  // The monitor's book and close_position
  // ---------------------------------------------------------------------

  datatype ClosedTrade = ClosedTrade(
    tradeId: string,
    pair: string,
    entry: real,
    exit: real,
    quantity: real,
    pnlUsdt: real,
    pnlPct: real,
    reason: ExitReason,
    openedAt: Option<string>,
    closedAt: string)

  /** The monitor's state besides its configuration. */
  datatype Book = Book(
    positions: seq<Position>,
    totalPnl: real,
    wins: nat,
    losses: nat,
    closedToday: seq<ClosedTrade>)

  /** What the sell order of a live close gives.  `error` is Some exactly
      when the reply has an `error` key, whatever it holds, since only the
      key's presence is tested. */
  datatype OrderAnswer = OrderRaised(message: string) | OrderReply(error: Option<string>)

  predicate OrderFailed(order: OrderAnswer) {
    order.OrderRaised? || order.error.Some?
  }

  /** `[p for p in positions if p['id'] != id]` */
  function RemoveId(ps: seq<Position>, id: string): (r: seq<Position>)
    ensures |r| <= |ps|
  {
    if ps == [] then []
    else RemoveId(ps[..|ps| - 1], id) + (if ps[|ps| - 1].id != id then [ps[|ps| - 1]] else [])
  }

  /** The removal drops every position with that id ... */
  lemma {:induction false} RemoveIdDrops(ps: seq<Position>, id: string)
    ensures forall k :: 0 <= k < |RemoveId(ps, id)| ==> RemoveId(ps, id)[k].id != id
  {
    if ps != [] {
      RemoveIdDrops(ps[..|ps| - 1], id);
    }
  }

  /** ... keeps every other one as often as it occurs ... */
  lemma {:induction false} RemoveIdKeeps(ps: seq<Position>, id: string, p: Position)
    requires p.id != id
    ensures multiset(RemoveId(ps, id))[p] == multiset(ps)[p]
  {
    if ps != [] {
      var init := ps[..|ps| - 1];
      RemoveIdKeeps(init, id, p);
      assert ps == init + [ps[|ps| - 1]];
    }
  }

  /** ... and changes nothing when no position has the id. */
  lemma {:induction false} RemoveIdAbsent(ps: seq<Position>, id: string)
    requires forall k :: 0 <= k < |ps| ==> ps[k].id != id
    ensures RemoveId(ps, id) == ps
  {
    if ps != [] {
      var init := ps[..|ps| - 1];
      RemoveIdAbsent(init, id);
      assert ps == init + [ps[|ps| - 1]];
    }
  }

  function ClosedRecord(s: ExitSignal, now: string): ClosedTrade {
    ClosedTrade(TradeIdOf(s.position), s.position.pair, s.position.entry, s.exitPrice,
                s.position.quantity, s.pnlUsdt, s.pnlPct, s.reason, s.position.openedAt, now)
  }

  /** The book after `close_position`: a live order that fails changes
      nothing; otherwise the P&L is booked, the trade recorded and every
      position with the signal's id removed. */
  function AfterClose(b: Book, s: ExitSignal, order: OrderAnswer, now: string, dryRun: bool): Book {
    if !dryRun && OrderFailed(order) then b
    else Book(RemoveId(b.positions, s.position.id),
              b.totalPnl + s.pnlUsdt,
              if s.pnlUsdt > 0.0 then b.wins + 1 else b.wins,
              if s.pnlUsdt > 0.0 then b.losses else b.losses + 1,
              b.closedToday + [ClosedRecord(s, now)])
  }

  function SumPnl(ts: seq<ClosedTrade>): real {
    if ts == [] then 0.0 else SumPnl(ts[..|ts| - 1]) + ts[|ts| - 1].pnlUsdt
  }

  /** The statistics agree with the closed trades: one win or loss per closed
      trade, and the total P&L is their sum. */
  predicate Consistent(b: Book) {
    b.wins + b.losses == |b.closedToday| && b.totalPnl == SumPnl(b.closedToday)
  }

  lemma AfterClosePreservesConsistency(b: Book, s: ExitSignal, order: OrderAnswer, now: string, dryRun: bool)
    requires Consistent(b)
    ensures Consistent(AfterClose(b, s, order, now, dryRun))
  {
    var ts := b.closedToday + [ClosedRecord(s, now)];
    assert ts[..|ts| - 1] == b.closedToday;
  }

  /** A successful close counts a win exactly when the P&L is positive; a
      P&L of zero is a loss. */
  lemma AfterCloseWinIffProfit(b: Book, s: ExitSignal, order: OrderAnswer, now: string, dryRun: bool)
    requires dryRun || !OrderFailed(order)
    ensures AfterClose(b, s, order, now, dryRun).wins == b.wins + 1 <==> s.pnlUsdt > 0.0
    ensures AfterClose(b, s, order, now, dryRun).losses == b.losses + 1 <==> s.pnlUsdt <= 0.0
    ensures |AfterClose(b, s, order, now, dryRun).closedToday| == |b.closedToday| + 1
  {
  }

  // ---------------------------------------------------------------------
  // check_all_positions
  // ---------------------------------------------------------------------

  /** Every position with a price has a non-zero entry (else the P&L division
      raises out of the monitor). */
  predicate PricesUsable(ps: seq<Position>, answers: seq<PriceAnswer>) {
    |answers| == |ps| && forall k :: 0 <= k < |ps| ==> answers[k].Priced? ==> ps[k].entry != 0.0
  }

  /** The positions after the checking loop. */
  function CheckedAll(ps: seq<Position>, answers: seq<PriceAnswer>): (r: seq<Position>)
    requires |answers| == |ps|
    ensures |r| == |ps|
    ensures forall k :: 0 <= k < |ps| ==> r[k] == CheckedPosition(ps[k], answers[k])
  {
    if ps == [] then []
    else CheckedAll(ps[..|ps| - 1], answers[..|ps| - 1]) + [CheckedPosition(ps[|ps| - 1], answers[|ps| - 1])]
  }

  /** The exit signals collected by the checking loop, in position order. */
  function SignalsOf(ps: seq<Position>, answers: seq<PriceAnswer>): (r: seq<ExitSignal>)
    requires PricesUsable(ps, answers)
    ensures |r| <= |ps|
  {
    if ps == [] then []
    else
      var n := |ps| - 1;
      var s := SignalFor(ps[n], answers[n]);
      SignalsOf(ps[..n], answers[..n]) + (if s.Some? then [s.value] else [])
  }

  /** The book after closing `signals` in order, the k-th with `orders[k]`. */
  function CloseAll(b: Book, signals: seq<ExitSignal>, orders: seq<OrderAnswer>, now: string, dryRun: bool): Book
    requires |signals| <= |orders|
  {
    if signals == [] then b
    else
      var n := |signals| - 1;
      AfterClose(CloseAll(b, signals[..n], orders, now, dryRun), signals[n], orders[n], now, dryRun)
  }

  lemma {:induction false} CloseAllPreservesConsistency(b: Book, signals: seq<ExitSignal>, orders: seq<OrderAnswer>,
                                                        now: string, dryRun: bool)
    requires |signals| <= |orders| && Consistent(b)
    ensures Consistent(CloseAll(b, signals, orders, now, dryRun))
  {
    if signals != [] {
      var n := |signals| - 1;
      CloseAllPreservesConsistency(b, signals[..n], orders, now, dryRun);
      AfterClosePreservesConsistency(CloseAll(b, signals[..n], orders, now, dryRun), signals[n], orders[n], now, dryRun);
    }
  }

  /** In paper mode every exit is closed: one closed trade per signal. */
  lemma {:induction false} DryRunClosesEverySignal(b: Book, signals: seq<ExitSignal>, orders: seq<OrderAnswer>, now: string)
    requires |signals| <= |orders|
    ensures |CloseAll(b, signals, orders, now, true).closedToday| == |b.closedToday| + |signals|
  {
    if signals != [] {
      DryRunClosesEverySignal(b, signals[..|signals| - 1], orders, now);
    }
  }

  /** A position whose check gives no price produces no exit. */
  lemma {:induction false} SignalsNeedPrices(ps: seq<Position>, answers: seq<PriceAnswer>)
    requires PricesUsable(ps, answers)
    requires forall k :: 0 <= k < |ps| ==> answers[k].NoPrice?
    ensures SignalsOf(ps, answers) == []
  {
    if ps != [] {
      var n := |ps| - 1;
      assert PricesUsable(ps[..n], answers[..n]);
      SignalsNeedPrices(ps[..n], answers[..n]);
    }
  }

  /** One step of the checking loop: the prefix of length `i + 1` extends the
      prefix of length `i` by the check of position `i`. */
  lemma CheckStep(ps: seq<Position>, answers: seq<PriceAnswer>, i: nat)
    requires PricesUsable(ps, answers) && i < |ps|
    ensures PricesUsable(ps[..i + 1], answers[..i + 1])
    ensures CheckedAll(ps[..i + 1], answers[..i + 1])
            == CheckedAll(ps[..i], answers[..i]) + [CheckedPosition(ps[i], answers[i])]
    ensures var s := SignalFor(ps[i], answers[i]);
            SignalsOf(ps[..i + 1], answers[..i + 1])
            == SignalsOf(ps[..i], answers[..i]) + (if s.Some? then [s.value] else [])
  {
    assert ps[..i + 1][..i] == ps[..i] && answers[..i + 1][..i] == answers[..i];
  }

  /** One more checked position in the list the checking loop updates. */
  lemma CheckedPrefixStep(ps: seq<Position>, answers: seq<PriceAnswer>, i: nat)
    requires |answers| == |ps| && i < |ps|
    ensures (CheckedAll(ps[..i], answers[..i]) + ps[i..])[i := CheckedPosition(ps[i], answers[i])]
            == CheckedAll(ps[..i + 1], answers[..i + 1]) + ps[i + 1..]
  {
    var c := CheckedPosition(ps[i], answers[i]);
    var before := CheckedAll(ps[..i], answers[..i]) + ps[i..];
    var after := CheckedAll(ps[..i + 1], answers[..i + 1]) + ps[i + 1..];
    assert |before[i := c]| == |after|;
    forall k | 0 <= k < |after| ensures before[i := c][k] == after[k] {
      if k < i {
        assert before[k] == CheckedPosition(ps[k], answers[k]);
      } else if k > i {
        assert before[k] == ps[k];
      }
    }
  }

  class Monitor {
    const dryRun: bool
    var positions: seq<Position>
    var totalPnl: real
    var wins: nat
    var losses: nat
    var closedToday: seq<ClosedTrade>

    function State(): Book
      reads this
    {
      Book(positions, totalPnl, wins, losses, closedToday)
    }

    /** A monitor starts with the stored positions and empty statistics. */
    constructor(dryRun: bool, stored: seq<Position>)
      ensures this.dryRun == dryRun
      ensures State() == Book(stored, 0.0, 0, 0, [])
      ensures Consistent(State())
    {
      this.dryRun := dryRun;
      positions := stored;
      totalPnl := 0.0;
      wins := 0;
      losses := 0;
      closedToday := [];
    }

    /** `add_position`: the id is the pair and the clock's whole seconds; the
        trade id defaults to that id. */
    method AddPosition(pair: string, entry: real, quantity: real, stopLoss: real, takeProfit: real,
                       tradeId: Option<string>, nowIso: string, nowSeconds: int)
      modifies this
      ensures positions == old(positions) + [Position(pair, entry, quantity, stopLoss, takeProfit,
                                                      pair + "_" + IntToString(nowSeconds),
                                                      Some(tradeId.GetOr(pair + "_" + IntToString(nowSeconds))),
                                                      Some(nowIso), None, None)]
      ensures TradeIdOf(positions[|positions| - 1]) == tradeId.GetOr(positions[|positions| - 1].id)
      ensures totalPnl == old(totalPnl) && wins == old(wins) && losses == old(losses)
      ensures closedToday == old(closedToday)
    {
      var id := pair + "_" + IntToString(nowSeconds);
      var tid := if tradeId.None? then id else tradeId.value;
      positions := positions + [Position(pair, entry, quantity, stopLoss, takeProfit, id, Some(tid), Some(nowIso), None, None)];
    }

    /** `check_position` for the position at index `i`. */
    method CheckPosition(i: nat, answer: PriceAnswer) returns (signal: Option<ExitSignal>)
      requires i < |positions|
      requires answer.Priced? ==> positions[i].entry != 0.0
      modifies this
      ensures positions == old(positions)[i := CheckedPosition(old(positions)[i], answer)]
      ensures signal == SignalFor(old(positions)[i], answer)
      ensures totalPnl == old(totalPnl) && wins == old(wins) && losses == old(losses)
      ensures closedToday == old(closedToday)
    {
      var position := positions[i];
      if answer.NoPrice? {
        return None;
      }
      var current := answer.current;
      var pnlPct := ((current - position.entry) / position.entry) * 100.0;
      var pnlUsdt := (current - position.entry) * position.quantity;
      var trailingActive := TrailingActive(position);
      var trailingStop := EffectiveStop(position);
      if !trailingActive {
        if answer.activate {
          trailingStop := answer.newStop;
          position := position.(trailingActive := Some(true), trailingStop := Some(trailingStop));
        }
      } else {
        if answer.activate && answer.newStop > trailingStop {
          trailingStop := answer.newStop;
          position := position.(trailingStop := Some(trailingStop));
        }
      }
      positions := positions[i := position];
      ghost var p0 := old(positions)[i];
      assert position == CheckedPosition(p0, answer) && trailingStop == EffectiveStop(position);
      assert pnlUsdt == (current - p0.entry) * p0.quantity;
      assert pnlPct == ((current - p0.entry) / p0.entry) * 100.0;
      var exit := ExitDecision(current, trailingStop, position.takeProfit);
      if exit.Some? {
        signal := Some(ExitSignal(position, exit.value.0, exit.value.1, pnlUsdt, pnlPct));
      } else {
        signal := None;
      }
      ghost var q := CheckedPosition(p0, answer);
      ghost var e := ExitDecision(answer.current, EffectiveStop(q), q.takeProfit);
      assert e == exit;
      if exit.Some? {
        assert SignalFor(p0, answer).Some?;
        assert SignalFor(p0, answer).value == signal.value;
      } else {
        assert SignalFor(p0, answer).None?;
      }
    }

    /** `close_position` */
    method ClosePosition(signal: ExitSignal, order: OrderAnswer, now: string) returns (ok: bool)
      modifies this
      ensures ok <==> dryRun || !OrderFailed(order)
      ensures State() == AfterClose(old(State()), signal, order, now, dryRun)
    {
      if !dryRun {
        match order {
          case OrderRaised(_) =>
            return false;
          case OrderReply(error) =>
            if error.Some? {
              return false;
            }
        }
      }
      var position := signal.position;
      totalPnl := totalPnl + signal.pnlUsdt;
      if signal.pnlUsdt > 0.0 {
        wins := wins + 1;
      } else {
        losses := losses + 1;
      }
      closedToday := closedToday + [ClosedRecord(signal, now)];
      positions := RemoveId(positions, position.id);
      ok := true;
    }

    /** The checking loop of `check_all_positions`. */
    method CheckEach(answers: seq<PriceAnswer>) returns (exits: seq<ExitSignal>)
      requires PricesUsable(positions, answers)
      modifies this
      ensures positions == CheckedAll(old(positions), answers)
      ensures exits == SignalsOf(old(positions), answers)
      ensures totalPnl == old(totalPnl) && wins == old(wins) && losses == old(losses)
      ensures closedToday == old(closedToday)
    {
      ghost var start := positions;
      exits := [];
      var i := 0;
      while i < |positions|
        invariant 0 <= i <= |positions| == |start|
        invariant positions == CheckedAll(start[..i], answers[..i]) + start[i..]
        invariant exits == SignalsOf(start[..i], answers[..i])
        invariant totalPnl == old(totalPnl) && wins == old(wins) && losses == old(losses)
        invariant closedToday == old(closedToday)
      {
        CheckStep(start, answers, i);
        CheckedPrefixStep(start, answers, i);
        var signal := CheckPosition(i, answers[i]);
        exits := exits + (if signal.Some? then [signal.value] else []);
        i := i + 1;
      }
      assert start[..i] == start && answers[..i] == answers && start[i..] == [];
    }

    /** The closing loop of `check_all_positions`. */
    method CloseEach(exits: seq<ExitSignal>, orders: seq<OrderAnswer>, now: string)
      requires |exits| <= |orders|
      modifies this
      ensures State() == CloseAll(old(State()), exits, orders, now, dryRun)
    {
      var k := 0;
      while k < |exits|
        invariant 0 <= k <= |exits|
        invariant State() == CloseAll(old(State()), exits[..k], orders, now, dryRun)
      {
        assert exits[..k + 1][..k] == exits[..k];
        var _ := ClosePosition(exits[k], orders[k], now);
        k := k + 1;
      }
      assert exits[..k] == exits;
    }

    /** `check_all_positions`: every position is checked first, collecting the
        exit signals; only then are the exits closed, in order. */
    method CheckAllPositions(answers: seq<PriceAnswer>, orders: seq<OrderAnswer>, now: string)
      requires PricesUsable(positions, answers) && |orders| == |positions|
      modifies this
      ensures State() == CloseAll(old(State()).(positions := CheckedAll(old(positions), answers)),
                                  SignalsOf(old(positions), answers), orders, now, dryRun)
    {
      if positions == [] {
        return;
      }
      var exits := CheckEach(answers);
      CloseEach(exits, orders, now);
    }
  }
}
