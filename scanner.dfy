/** The market scanner: the 0-100 opportunity score with its bonuses and
    reasoning text, the sorted pair list, and `scan_markets`, which filters
    every USDT pair, ranks the survivors by score and keeps the top N.
    Exchange calls and the indicator library are inputs. */
module Scanner {
  import opened Basics
  import opened Text
  import opened Indicators
  import Ranking
  import ExchangeManager

  // ---------------------------------------------------------------------
  // score_opportunity
  // ---------------------------------------------------------------------

  /** Python `int(x)` on a float: truncation toward zero. */
  function TruncToInt(x: real): (n: int)
    ensures x >= 0.0 ==> n == x.Floor
    ensures x < 0.0 ==> n == -((-x).Floor)
  {
    if x >= 0.0 then x.Floor else -((-x).Floor)
  }

  datatype Reason =
    | StrongUptrend
    | ModerateUptrend
    | WeakUptrend
    | RsiNeutralZone
    | RsiOversoldRecovery
    | RsiStrengthZone
    | VolumeSurge(percent: int)
    | AboveAverageVolume(percent: int)

  function ReasonText(r: Reason): (s: string)
    ensures |s| >= 3 && (s[0] != 'S' || s[2] != 'a')
  {
    match r
    case StrongUptrend => "Strong uptrend (EMA spread >2%)"
    case ModerateUptrend => "Moderate uptrend"
    case WeakUptrend => "Weak uptrend"
    case RsiNeutralZone => "RSI neutral zone (ideal entry)"
    case RsiOversoldRecovery => "RSI oversold recovery"
    case RsiStrengthZone => "RSI in strength zone"
    case VolumeSurge(p) => "Volume surge +" + IntToString(p) + "%"
    case AboveAverageVolume(p) => "Above-avg volume +" + IntToString(p) + "%"
  }

  /** Spread of the fast EMA over the slow one, in percent of the slow one. */
  function EmaSpreadPercent(ind: Indicators): real
    requires ind.emaSlow != 0.0
  {
    ((ind.emaFast - ind.emaSlow) / ind.emaSlow) * 100.0
  }

  /** Trend bonus and its reason: 15 / 10 / 5 for a spread above 2 / 1 / 0.5 percent. */
  function TrendBonus(ind: Indicators): (b: (nat, seq<Reason>))
    requires ind.emaSlow != 0.0
    ensures b.0 == 15 <==> EmaSpreadPercent(ind) > 2.0
    ensures b.0 == 10 <==> 1.0 < EmaSpreadPercent(ind) <= 2.0
    ensures b.0 == 5 <==> 0.5 < EmaSpreadPercent(ind) <= 1.0
    ensures b.0 == 0 <==> EmaSpreadPercent(ind) <= 0.5
    ensures |b.1| == (if b.0 == 0 then 0 else 1)
  {
    var spread := EmaSpreadPercent(ind);
    if spread > 2.0 then (15, [StrongUptrend])
    else if spread > 1.0 then (10, [ModerateUptrend])
    else if spread > 0.5 then (5, [WeakUptrend])
    else (0, [])
  }

  /** RSI bonus and its reason: 10 / 7 / 5 for an RSI strictly inside
      (40, 60) / (30, 40) / (60, 70). */
  function RsiBonus(ind: Indicators): (b: (nat, seq<Reason>))
    ensures b.0 == 10 <==> 40.0 < ind.rsi < 60.0
    ensures b.0 == 7 <==> 30.0 < ind.rsi < 40.0
    ensures b.0 == 5 <==> 60.0 < ind.rsi < 70.0
    ensures b.0 == 0 <==> ind.rsi <= 30.0 || ind.rsi == 40.0 || ind.rsi == 60.0 || ind.rsi >= 70.0
    ensures |b.1| == (if b.0 == 0 then 0 else 1)
  {
    if 40.0 < ind.rsi < 60.0 then (10, [RsiNeutralZone])
    else if 30.0 < ind.rsi < 40.0 then (7, [RsiOversoldRecovery])
    else if 60.0 < ind.rsi < 70.0 then (5, [RsiStrengthZone])
    else (0, [])
  }

  /** Volume bonus and its reason: 5 above a ratio of 2.0, 3 above 1.5; the
      reason quotes the surge as a truncated percentage. */
  function VolumeBonus(ind: Indicators): (b: (nat, seq<Reason>))
    ensures b.0 == 5 <==> ind.volumeRatio > 2.0
    ensures b.0 == 3 <==> 1.5 < ind.volumeRatio <= 2.0
    ensures b.0 == 0 <==> ind.volumeRatio <= 1.5
    ensures |b.1| == (if b.0 == 0 then 0 else 1)
    ensures b.0 == 5 ==> b.1[0] == VolumeSurge(TruncToInt((ind.volumeRatio - 1.0) * 100.0))
    ensures b.0 == 3 ==> b.1[0] == AboveAverageVolume(TruncToInt((ind.volumeRatio - 1.0) * 100.0))
  {
    var pct := TruncToInt((ind.volumeRatio - 1.0) * 100.0);
    if ind.volumeRatio > 2.0 then (5, [VolumeSurge(pct)])
    else if ind.volumeRatio > 1.5 then (3, [AboveAverageVolume(pct)])
    else (0, [])
  }

  function ReasonTexts(rs: seq<Reason>): (ts: seq<string>)
    ensures |ts| == |rs|
    ensures forall i :: 0 <= i < |rs| ==> ts[i] == ReasonText(rs[i])
  {
    if rs == [] then [] else [ReasonText(rs[0])] + ReasonTexts(rs[1..])
  }

  function Reasoning(rs: seq<Reason>): string {
    if rs == [] then "Standard setup" else Join(ReasonTexts(rs), " | ")
  }

  datatype Scored = Scored(score: int, reasoning: string)

  /** `score_opportunity`: ten times the setup score plus the three bonuses,
      capped at 100.  None where Python raises: a zero price (inside
      `score_setup`) or a zero slow EMA. */
  function ScoreOpportunity(ind: Indicators): (r: Option<Scored>)
    ensures r.None? <==> ind.price == 0.0 || ind.emaSlow == 0.0
    ensures r.Some? ==>
              var raw := 10 * ScoreSetup(ind).value + TrendBonus(ind).0 + RsiBonus(ind).0 + VolumeBonus(ind).0;
              r.value.score == (if raw < 100 then raw else 100)
  {
    match ScoreSetup(ind)
    case None => None
    case Some(base) =>
      if ind.emaSlow == 0.0 then None
      else
        var trend := TrendBonus(ind);
        var rsi := RsiBonus(ind);
        var volume := VolumeBonus(ind);
        var score := base * 10 + trend.0 + rsi.0 + volume.0;
        var score := if 100 < score then 100 else score;
        Some(Scored(score, Reasoning(trend.1 + rsi.1 + volume.1)))
  }

  lemma {:induction false} JoinStartsWithFirst(parts: seq<string>, sep: string)
    requires |parts| > 0
    ensures |Join(parts, sep)| >= |parts[0]| && Join(parts, sep)[..|parts[0]|] == parts[0]
  {
    if |parts| > 1 {
      var rest := Join(parts[1..], sep);
      assert Join(parts, sep) == parts[0] + (sep + rest);
    }
  }

  /** The opportunity score lies in [0, 100]. */
  lemma ScoreOpportunityBounds(ind: Indicators)
    requires ind.price != 0.0 && ind.emaSlow != 0.0
    ensures 0 <= ScoreOpportunity(ind).value.score <= 100
  {
  }

  /** The reasoning is "Standard setup" exactly when no bonus applied, and
      otherwise starts with the first applied reason (trend, then RSI, then
      volume). */
  lemma ReasoningStandardIffNoBonus(ind: Indicators)
    requires ind.price != 0.0 && ind.emaSlow != 0.0
    ensures ScoreOpportunity(ind).value.reasoning == "Standard setup"
            <==> TrendBonus(ind).0 + RsiBonus(ind).0 + VolumeBonus(ind).0 == 0
    ensures var rs := TrendBonus(ind).1 + RsiBonus(ind).1 + VolumeBonus(ind).1;
            rs != [] ==> ReasonText(rs[0]) <= ScoreOpportunity(ind).value.reasoning
  {
    var rs := TrendBonus(ind).1 + RsiBonus(ind).1 + VolumeBonus(ind).1;
    assert ScoreOpportunity(ind).value.reasoning == Reasoning(rs);
    if rs != [] {
      var ts := ReasonTexts(rs);
      JoinStartsWithFirst(ts, " | ");
      var j := Join(ts, " | ");
      assert ts[0] == ReasonText(rs[0]);
      assert j[0] == ts[0][0] && j[2] == ts[0][2];
      assert "Standard setup"[0] == 'S' && "Standard setup"[2] == 'a';
    }
  }

  /** Every bonus comparison is strict: RSI at 30, 40, 60 or 70 earns no RSI
      bonus, and a volume ratio of exactly 2.0 earns 3, not 5. */
  lemma BonusBoundaries(ind: Indicators)
    ensures ind.rsi == 30.0 || ind.rsi == 40.0 || ind.rsi == 60.0 || ind.rsi == 70.0
            ==> RsiBonus(ind).0 == 0
    ensures ind.volumeRatio == 2.0 ==> VolumeBonus(ind).0 == 3
  {
  }

  /** The strong indicator set of the scanner tests scores 98 (at least 70). */
  lemma StrongSetupScores()
    ensures ScoreOpportunity(Indicators(70000.0, 69000.0, 67500.0, 55.0, 50.0, 100.0, 90.0, 10.0,
                                        1400.0, 1000.0, 500.0, 2.0)).value.score == 98
  {
    var ind := Indicators(70000.0, 69000.0, 67500.0, 55.0, 50.0, 100.0, 90.0, 10.0,
                          1400.0, 1000.0, 500.0, 2.0);
    assert AtrPercent(ind) == 2.0;
    assert ScoreSetup(ind).value == 7;
    assert EmaSpreadPercent(ind) > 2.0;
  }

  lemma AboveAverageVolumeText()
    ensures ReasonText(AboveAverageVolume(100)) == "Above-avg volume +100%"
  {
    assert NatToString(100) == "100";
  }

  /** ... and its reasoning lists the three bonuses in order, with the
      volume ratio of 2.0 quoted as +100%. */
  lemma StrongSetupReasoning()
    ensures ScoreOpportunity(Indicators(70000.0, 69000.0, 67500.0, 55.0, 50.0, 100.0, 90.0, 10.0,
                                        1400.0, 1000.0, 500.0, 2.0)).value.reasoning
            == Join(["Strong uptrend (EMA spread >2%)", "RSI neutral zone (ideal entry)", "Above-avg volume +100%"], " | ")
  {
    var ind := Indicators(70000.0, 69000.0, 67500.0, 55.0, 50.0, 100.0, 90.0, 10.0,
                          1400.0, 1000.0, 500.0, 2.0);
    assert EmaSpreadPercent(ind) > 2.0;
    assert TruncToInt((ind.volumeRatio - 1.0) * 100.0) == 100;
    var rs := [StrongUptrend, RsiNeutralZone, AboveAverageVolume(100)];
    assert TrendBonus(ind).1 + RsiBonus(ind).1 + VolumeBonus(ind).1 == rs;
    assert ScoreOpportunity(ind).value.reasoning == Reasoning(rs);
    AboveAverageVolumeText();
    var t0, t1, t2 := "Strong uptrend (EMA spread >2%)", "RSI neutral zone (ideal entry)", "Above-avg volume +100%";
    assert ReasonTexts(rs) == [t0, t1, t2];
  }

  /** The weak indicator set of the scanner tests scores 0 (below 50) with the
      standard reasoning. */
  lemma WeakSetupScores()
    ensures ScoreOpportunity(Indicators(70000.0, 70100.0, 70200.0, 75.0, 76.0, -50.0, -40.0, -10.0,
                                        700.0, 500.0, 1000.0, 0.5))
            == Some(Scored(0, "Standard setup"))
  {
    var ind := Indicators(70000.0, 70100.0, 70200.0, 75.0, 76.0, -50.0, -40.0, -10.0,
                          700.0, 500.0, 1000.0, 0.5);
    assert AtrPercent(ind) == 1.0;
    assert ScoreSetup(ind).value == 0;
    assert EmaSpreadPercent(ind) < 0.0;
  }

  // ---------------------------------------------------------------------
  // Pair list
  // ---------------------------------------------------------------------

  /** `get_usdt_pairs`: the exchange's list sorted, or empty when the call raised. */
  function GetUsdtPairs(answer: Option<seq<string>>): (r: seq<string>)
    ensures answer.None? ==> r == []
    ensures answer.Some? ==> Ranking.SortedAsc(r) && multiset(r) == multiset(answer.value)
  {
    match answer
    case None => []
    case Some(symbols) =>
      Ranking.SortStringsCorrect(symbols);
      Ranking.SortStrings(symbols)
  }

  // ---------------------------------------------------------------------
  // scan_markets
  // ---------------------------------------------------------------------

  /** Everything a scan reads besides the pair list: the thresholds, whether
      affordability is checked, the balance, and what the exchange and the
      indicator library give for each pair. */
  datatype ScanEnv = ScanEnv(
    minScore: int,
    checkAffordability: bool,
    hasExchange: bool,
    balance: real,
    klines: string -> KlineSample,
    symbolInfo: string -> ExchangeManager.SymbolAnswer)

  /** The balance is only fetched, and affordability only checked, when both
      the flag and an exchange manager are present, and only a positive
      balance triggers the check. */
  predicate ChecksAffordability(env: ScanEnv) {
    env.checkAffordability && env.hasExchange && env.balance > 0.0
  }

  datatype Opportunity = Opportunity(
    pair: string,
    score: int,
    entryPrice: real,
    indicators: Indicators,
    reasoning: string)

  function ScoreOf(o: Opportunity): int {
    o.score
  }

  datatype PairOutcome =
    | NoKlines
    | InsufficientData
    | IndicatorError
    | ScoringError
    | LowScore
    | NotAffordable
    | Accepted(opportunity: Opportunity)

  /** The decision for a pair whose indicators were computed: score it, then
      filter on the minimum score and on affordability. */
  function Judge(env: ScanEnv, pair: string, ind: Indicators): (o: PairOutcome)
    ensures o.Accepted? ==> o.opportunity.pair == pair && o.opportunity.score >= env.minScore
    ensures o.NotAffordable? ==> ChecksAffordability(env)
    ensures o.ScoringError? <==> ScoreOpportunity(ind).None?
  {
    match ScoreOpportunity(ind)
    case None => ScoringError
    case Some(scored) =>
      if scored.score < env.minScore then LowScore
      else if ChecksAffordability(env)
              && !ExchangeManager.IsPairAffordable(env.symbolInfo(pair), ind.price, env.balance)
      then NotAffordable
      else Accepted(Opportunity(pair, scored.score, ind.price, ind, scored.reasoning))
  }

  /** What the loop body of `scan_markets` decides for one pair. */
  function Classify(env: ScanEnv, pair: string): (o: PairOutcome)
    ensures o.Accepted? ==> o.opportunity.pair == pair && o.opportunity.score >= env.minScore
    ensures o.NotAffordable? ==> ChecksAffordability(env)
  {
    match env.klines(pair)
    case FetchFailed => NoKlines
    case Fetched(count, indicators) =>
      if count == 0 then NoKlines
      else if count < 50 then InsufficientData
      else match indicators
      case None => IndicatorError
      case Some(ind) => Judge(env, pair, ind)
  }

  /** The opportunities collected from `pairs`, in scan order. */
  function AcceptedOf(env: ScanEnv, pairs: seq<string>): (r: seq<Opportunity>)
    ensures |r| <= |pairs|
    ensures forall i :: 0 <= i < |r| ==> r[i].score >= env.minScore
  {
    if pairs == [] then []
    else
      var o := Classify(env, pairs[|pairs| - 1]);
      AcceptedOf(env, pairs[..|pairs| - 1]) + (if o.Accepted? then [o.opportunity] else [])
  }

  datatype FilterStats = FilterStats(
    noKlines: nat,
    insufficientData: nat,
    indicatorError: nat,
    lowScore: nat,
    notAffordable: nat,
    scanned: nat,
    errors: nat)
  {
    function Total(): nat {
      noKlines + insufficientData + indicatorError + lowScore + notAffordable + scanned + errors
    }
  }

  function Count(s: FilterStats, o: PairOutcome): (r: FilterStats)
    ensures r.Total() == s.Total() + 1
    ensures r.scanned == s.scanned + (if o.Accepted? then 1 else 0)
    ensures r.notAffordable == s.notAffordable + (if o.NotAffordable? then 1 else 0)
  {
    match o
    case NoKlines => s.(noKlines := s.noKlines + 1)
    case InsufficientData => s.(insufficientData := s.insufficientData + 1)
    case IndicatorError => s.(indicatorError := s.indicatorError + 1)
    case ScoringError => s.(errors := s.errors + 1)
    case LowScore => s.(lowScore := s.lowScore + 1)
    case NotAffordable => s.(notAffordable := s.notAffordable + 1)
    case Accepted(_) => s.(scanned := s.scanned + 1)
  }

  /** The filter counters after scanning `pairs`. */
  function Tally(env: ScanEnv, pairs: seq<string>): FilterStats {
    if pairs == [] then FilterStats(0, 0, 0, 0, 0, 0, 0)
    else Count(Tally(env, pairs[..|pairs| - 1]), Classify(env, pairs[|pairs| - 1]))
  }

  /** The list `scan_markets` returns for a pair list. */
  function ScanResult(env: ScanEnv, pairs: seq<string>, topN: int): seq<Opportunity> {
    Ranking.PyPrefix(Ranking.SortDesc(AcceptedOf(env, pairs), ScoreOf), topN)
  }

  /** Every pair lands in exactly one counter. */
  lemma {:induction false} TallyCountsEveryPair(env: ScanEnv, pairs: seq<string>)
    ensures Tally(env, pairs).Total() == |pairs|
    ensures Tally(env, pairs).scanned == |AcceptedOf(env, pairs)|
  {
    if pairs != [] {
      TallyCountsEveryPair(env, pairs[..|pairs| - 1]);
    }
  }

  /** Without the affordability check nothing is filtered as unaffordable. */
  lemma {:induction false} NoAffordabilityFilterWhenOff(env: ScanEnv, pairs: seq<string>)
    requires !ChecksAffordability(env)
    ensures Tally(env, pairs).notAffordable == 0
  {
    if pairs != [] {
      var init := pairs[..|pairs| - 1];
      NoAffordabilityFilterWhenOff(env, init);
      var o := Classify(env, pairs[|pairs| - 1]);
      assert !o.NotAffordable?;
      assert Tally(env, pairs) == Count(Tally(env, init), o);
    }
  }

  /** What `scan_markets` returns: every entry meets the minimum score, the
      list is ordered by score (highest first, ties in scan order), holds at
      most `top_n` entries (exactly `top_n` when that many pairs are
      accepted), is drawn from the accepted pairs, and leaves out no accepted
      pair that scores above one it keeps. */
  lemma ScanResultProperties(env: ScanEnv, pairs: seq<string>, topN: int)
    ensures forall i :: 0 <= i < |ScanResult(env, pairs, topN)| ==> ScanResult(env, pairs, topN)[i].score >= env.minScore
    ensures Ranking.SortedDesc(ScanResult(env, pairs, topN), ScoreOf)
    ensures topN >= 0 ==> |ScanResult(env, pairs, topN)| == if topN < |AcceptedOf(env, pairs)| then topN else |AcceptedOf(env, pairs)|
    ensures multiset(ScanResult(env, pairs, topN)) <= multiset(AcceptedOf(env, pairs))
    ensures forall x, i :: x in AcceptedOf(env, pairs) && x !in ScanResult(env, pairs, topN) && 0 <= i < |ScanResult(env, pairs, topN)|
                           ==> x.score <= ScanResult(env, pairs, topN)[i].score
  {
    ScanResultRanked(env, pairs, topN);
    ScanResultScores(env, pairs, topN);
    ScanResultKeepsBest(env, pairs, topN);
  }

  /** The result is a leading part of the accepted pairs sorted by score. */
  lemma ScanResultRanked(env: ScanEnv, pairs: seq<string>, topN: int)
    ensures var sorted := Ranking.SortDesc(AcceptedOf(env, pairs), ScoreOf);
            |sorted| == |AcceptedOf(env, pairs)| && multiset(sorted) == multiset(AcceptedOf(env, pairs))
            && Ranking.SortedDesc(sorted, ScoreOf)
            && |ScanResult(env, pairs, topN)| <= |sorted| && ScanResult(env, pairs, topN) == sorted[..|ScanResult(env, pairs, topN)|]
    ensures Ranking.SortedDesc(ScanResult(env, pairs, topN), ScoreOf)
    ensures topN >= 0 ==> |ScanResult(env, pairs, topN)| == if topN < |AcceptedOf(env, pairs)| then topN else |AcceptedOf(env, pairs)|
    ensures multiset(ScanResult(env, pairs, topN)) <= multiset(AcceptedOf(env, pairs))
  {
    var all := AcceptedOf(env, pairs);
    var sorted := Ranking.SortDesc(all, ScoreOf);
    Ranking.SortDescCorrect(all, ScoreOf);
    var r := ScanResult(env, pairs, topN);
    assert r == sorted[..|r|];
    assert sorted == r + sorted[|r|..];
    assert |sorted| == |all| by {
      assert |multiset(sorted)| == |multiset(all)|;
    }
    Ranking.PrefixKeepsBest(sorted, |r|, ScoreOf);
  }

  /** Every entry of the result meets the minimum score. */
  lemma ScanResultScores(env: ScanEnv, pairs: seq<string>, topN: int)
    ensures forall i :: 0 <= i < |ScanResult(env, pairs, topN)| ==> ScanResult(env, pairs, topN)[i].score >= env.minScore
  {
    var all := AcceptedOf(env, pairs);
    var r := ScanResult(env, pairs, topN);
    ScanResultRanked(env, pairs, topN);
    forall i | 0 <= i < |r| ensures r[i].score >= env.minScore {
      assert r[i] in multiset(r);
      assert r[i] in multiset(all);
      var k :| 0 <= k < |all| && all[k] == r[i];
    }
  }

  /** No accepted pair left out scores above one the result keeps. */
  lemma ScanResultKeepsBest(env: ScanEnv, pairs: seq<string>, topN: int)
    ensures forall x, i :: x in AcceptedOf(env, pairs) && x !in ScanResult(env, pairs, topN) && 0 <= i < |ScanResult(env, pairs, topN)|
                           ==> x.score <= ScanResult(env, pairs, topN)[i].score
  {
    var all := AcceptedOf(env, pairs);
    var sorted := Ranking.SortDesc(all, ScoreOf);
    var r := ScanResult(env, pairs, topN);
    ScanResultRanked(env, pairs, topN);
    assert sorted == r + sorted[|r|..];
    Ranking.PrefixKeepsBest(sorted, |r|, ScoreOf);
    forall x, i | x in all && x !in r && 0 <= i < |r| ensures x.score <= r[i].score {
      assert x in multiset(sorted);
      assert ScoreOf(x) <= ScoreOf(sorted[i]);
    }
  }

  /** Scanning one more pair appends its outcome. */
  lemma ScanStep(env: ScanEnv, pairs: seq<string>, i: nat)
    requires i < |pairs|
    ensures Tally(env, pairs[..i + 1]) == Count(Tally(env, pairs[..i]), Classify(env, pairs[i]))
    ensures AcceptedOf(env, pairs[..i + 1])
            == AcceptedOf(env, pairs[..i])
               + (if Classify(env, pairs[i]).Accepted? then [Classify(env, pairs[i]).opportunity] else [])
  {
    assert pairs[..i + 1][..i] == pairs[..i];
  }

  /** One pass of the `scan_markets` loop body: fetch, check the candle
      count, compute and score the indicators, filter, and record the pair
      either as an opportunity or in the matching counter. */
  method ScanPair(env: ScanEnv, pair: string, opportunities: seq<Opportunity>, stats: FilterStats)
    returns (opportunities': seq<Opportunity>, stats': FilterStats)
    ensures stats' == Count(stats, Classify(env, pair))
    ensures opportunities' == opportunities
            + (if Classify(env, pair).Accepted? then [Classify(env, pair).opportunity] else [])
  {
    opportunities' := opportunities;
    var sample := env.klines(pair);
    if sample.FetchFailed? || sample.candles == 0 {
      assert Classify(env, pair) == NoKlines;
      stats' := stats.(noKlines := stats.noKlines + 1);
    } else if sample.candles < 50 {
      assert Classify(env, pair) == InsufficientData;
      stats' := stats.(insufficientData := stats.insufficientData + 1);
    } else if sample.indicators.None? {
      assert Classify(env, pair) == IndicatorError;
      stats' := stats.(indicatorError := stats.indicatorError + 1);
    } else {
      var ind := sample.indicators.value;
      assert Classify(env, pair) == Judge(env, pair, ind);
      var scored := ScoreOpportunity(ind);
      if scored.None? {
        stats' := stats.(errors := stats.errors + 1);
      } else if scored.value.score < env.minScore {
        assert Judge(env, pair, ind) == LowScore;
        stats' := stats.(lowScore := stats.lowScore + 1);
      } else if ChecksAffordability(env)
                && !ExchangeManager.IsPairAffordable(env.symbolInfo(pair), ind.price, env.balance) {
        assert Judge(env, pair, ind) == NotAffordable;
        stats' := stats.(notAffordable := stats.notAffordable + 1);
      } else {
        var o := Opportunity(pair, scored.value.score, ind.price, ind, scored.value.reasoning);
        assert Judge(env, pair, ind) == Accepted(o);
        opportunities' := opportunities + [o];
        stats' := stats.(scanned := stats.scanned + 1);
      }
    }
  }

  /** `scan_markets`: the loop classifies every pair exactly as `Classify`
      does, counts it, and the result is the ranked top N. */
  method ScanMarkets(env: ScanEnv, pairsAnswer: Option<seq<string>>, topN: int)
    returns (top: seq<Opportunity>, stats: FilterStats)
    ensures top == ScanResult(env, GetUsdtPairs(pairsAnswer), topN)
    ensures stats == Tally(env, GetUsdtPairs(pairsAnswer))
  {
    var pairs := GetUsdtPairs(pairsAnswer);
    if pairs == [] {
      return [], FilterStats(0, 0, 0, 0, 0, 0, 0);
    }
    var opportunities: seq<Opportunity> := [];
    stats := FilterStats(0, 0, 0, 0, 0, 0, 0);
    var i := 0;
    while i < |pairs|
      invariant 0 <= i <= |pairs|
      invariant opportunities == AcceptedOf(env, pairs[..i])
      invariant stats == Tally(env, pairs[..i])
    {
      var pair := pairs[i];
      ScanStep(env, pairs, i);
      opportunities, stats := ScanPair(env, pairs[i], opportunities, stats);
      i := i + 1;
    }
    assert pairs[..|pairs|] == pairs;
    var sorted := Ranking.SortDesc(opportunities, ScoreOf);
    top := Ranking.PyPrefix(sorted, topN);
  }
}
