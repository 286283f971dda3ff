/**
 * The decision scoring engine: a total function from a candle snapshot and an
 * accuracy threshold to a verdict. Layers run in order and the first failing
 * one decides: message/size gate, trend, pattern, location, a fixed indicator
 * score, then the threshold test.
 */
module DecisionEngine {
  import opened Wrappers
  import opened Candles

  datatype Decision = Buy | Sell | Wait | NoTrade

  /**
   * The reason attached to a verdict, kept as its template and the values the
   * template interpolates; Text() renders the exact string the engine reports.
   */
  datatype Reason =
    | Message(message: string)
    | InsufficientCandles
    | MarketUnstable
    | CandleWeak
    | PatternOk
    | SetupIncomplete
    | Shortfall(accuracy: int, threshold: int)
    | Direction(bullish: bool)
  {
    function Text(): string
    {
      match this
      case Message(m) => m
      case InsufficientCandles => "TRADE NIO NA \U{2013} insufficient candles"
      case MarketUnstable => "TRADE NIO NA \U{2013} Market unstable"
      case CandleWeak => "TRADE NIO NA \U{2013} Candle weak"
      case PatternOk => "Pattern OK"
      case SetupIncomplete => "WAIT \U{2013} Setup complete hoy nai"
      case Shortfall(a, t) => "NO TRADE \U{2013} accuracy " + IntToString(a) + "% (< " + IntToString(t) + "%)"
      case Direction(b) => (if b then "Bullish" else "Bearish") + " pattern near zone"
    }
  }

  datatype Result = Result(decision: Decision, accuracy: int, reason: Reason, alert: bool)

  /** What the pattern layer hands back: pass/fail, its score and a reason. */
  datatype PatternCheck = PatternCheck(ok: bool, score: int, reason: Reason)

  const DefaultThreshold: int := 80
  const MinCandles: int := 5
  const MinTrendScore: int := 10
  const MinPatternScore: int := 18
  const MinLocationScore: int := 5
  /** No indicator detection exists; the layer always contributes a neutral 10. */
  const IndicatorScore: int := 10
  /** Distance, in pixels, within which the last candle counts as at an extreme. */
  const Proximity: real := 10.0

  // ---------------------------------------------------------------------------
  // Layer 1: trend

  /** Adjacent pairs whose area strictly rises. */
  function Ups(cs: seq<Candle>): nat
    decreases |cs|
  {
    if |cs| < 2 then 0
    else Ups(cs[..|cs| - 1]) + (if cs[|cs| - 1].area > cs[|cs| - 2].area then 1 else 0)
  }

  /** Adjacent pairs whose area does not rise: a flat pair counts as a down move. */
  function Downs(cs: seq<Candle>): nat
    decreases |cs|
  {
    if |cs| < 2 then 0
    else Downs(cs[..|cs| - 1]) + (if cs[|cs| - 1].area > cs[|cs| - 2].area then 0 else 1)
  }

  function Abs(x: int): nat
  {
    if x < 0 then -x else x
  }

  function AtMost(x: int, bound: int): int
  {
    if x <= bound then x else bound
  }

  /** The trend score: three points per move of dominance, at most ten moves. */
  function TrendScore(cs: seq<Candle>): (score: int)
    ensures score % 3 == 0 && 0 <= score <= 30
  {
    var dominance := Abs(Ups(cs) - Downs(cs));
    AtMost(AtMost(dominance, 10) * 3, 30)
  }

  /** The loop of the trend layer, counting ups and downs pair by pair. */
  method CheckTrend(cs: seq<Candle>) returns (score: int)
    ensures score == TrendScore(cs)
  {
    var n := |cs|;
    var ups := 0;
    var downs := 0;
    if n >= 1 {
      var i := 1;
      while i < n
        invariant 1 <= i <= n
        invariant ups == Ups(cs[..i]) && downs == Downs(cs[..i])
      {
        assert cs[..i + 1][..i] == cs[..i];
        if cs[i].area > cs[i - 1].area {
          ups := ups + 1;
        } else {
          downs := downs + 1;
        }
        i := i + 1;
      }
      assert cs[..n] == cs;
    }
    var dominance := Abs(ups - downs);
    score := AtMost(dominance, 10) * 3;
    score := AtMost(score, 30);
  }

  /** Every adjacent pair is counted exactly once, as an up or as a down. */
  lemma {:induction false} UpsPlusDowns(cs: seq<Candle>)
    ensures Ups(cs) + Downs(cs) == if cs == [] then 0 else |cs| - 1
    decreases |cs|
  {
    if |cs| >= 2 {
      UpsPlusDowns(cs[..|cs| - 1]);
    }
  }

  /** A history whose areas never change has no up moves: all its pairs are downs. */
  lemma {:induction false} FlatAreasCountAsDowns(cs: seq<Candle>)
    requires forall i :: 0 < i < |cs| ==> cs[i].area == cs[i - 1].area
    ensures Ups(cs) == 0
    ensures Downs(cs) == if cs == [] then 0 else |cs| - 1
    decreases |cs|
  {
    if |cs| >= 2 {
      FlatAreasCountAsDowns(cs[..|cs| - 1]);
    }
  }

  /** A history whose areas strictly rise at every step has only up moves. */
  lemma {:induction false} RisingAreasCountAsUps(cs: seq<Candle>)
    requires forall i :: 0 < i < |cs| ==> cs[i].area > cs[i - 1].area
    ensures Downs(cs) == 0
    ensures Ups(cs) == if cs == [] then 0 else |cs| - 1
    decreases |cs|
  {
    if |cs| >= 2 {
      RisingAreasCountAsUps(cs[..|cs| - 1]);
    }
  }

  /** Dominance cannot exceed the number of pairs, so short histories score low. */
  lemma TrendBoundedByLength(cs: seq<Candle>)
    requires |cs| > 0
    ensures TrendScore(cs) <= 3 * (|cs| - 1)
  {
    UpsPlusDowns(cs);
  }

  /** The trend gate passes exactly when one direction leads by four moves or more. */
  lemma TrendGate(cs: seq<Candle>)
    ensures TrendScore(cs) >= MinTrendScore <==> Abs(Ups(cs) - Downs(cs)) >= 4
    ensures TrendScore(cs) >= MinTrendScore ==> TrendScore(cs) >= 12
  {
  }

  // ---------------------------------------------------------------------------
  // Layer 2: pattern

  predicate IsEngulfing(last: Candle, prev: Candle)
  {
    last.area > prev.area * 1.2
  }

  predicate IsHammer(c: Candle)
  {
    c.bodySize < (c.wickBottom - c.wickTop) * 0.3
  }

  /** The pattern layer; `cs` must be non-empty because the source calls last() on it. */
  function CheckPattern(cs: seq<Candle>): (r: PatternCheck)
    requires |cs| > 0
    ensures r.ok <==> r.score in {25, 20, 18}
    ensures r.ok ==> r.reason == PatternOk
    ensures !r.ok ==> r.score == 0 && r.reason == CandleWeak
    ensures |cs| < 2 ==> !r.ok
    ensures |cs| >= 2 && IsEngulfing(cs[|cs| - 1], cs[|cs| - 2]) ==> r.score == 25
    ensures |cs| >= 2 && !IsEngulfing(cs[|cs| - 1], cs[|cs| - 2]) && IsHammer(cs[|cs| - 1]) ==> r.score == 20
    ensures r.score == 18 ==> !IsHammer(cs[|cs| - 1]) && cs[|cs| - 1].area > 200.0
    ensures |cs| >= 2 && !IsEngulfing(cs[|cs| - 1], cs[|cs| - 2]) && !IsHammer(cs[|cs| - 1]) ==>
      (r.score == 18 <==> cs[|cs| - 1].area > 200.0)
    ensures (|cs| >= 2 && !IsEngulfing(cs[|cs| - 1], cs[|cs| - 2]) && !IsHammer(cs[|cs| - 1]) &&
             cs[|cs| - 1].area <= 200.0) ==> !r.ok
  {
    var last := cs[|cs| - 1];
    if |cs| < 2 then PatternCheck(false, 0, CandleWeak)
    else
      var prev := cs[|cs| - 2];
      var score :=
        if IsEngulfing(last, prev) then 25
        else if IsHammer(last) then 20
        else if last.area > 200.0 then 18
        else 0;
      if score < MinPatternScore then PatternCheck(false, score, CandleWeak)
      else PatternCheck(true, AtMost(score, 30), PatternOk)
  }

  /** A candle built from a bounding rectangle is never a hammer: its body is 60% of its extent. */
  lemma RectangleCandleIsNoHammer(c: Candle)
    requires IsRectangleCandle(c)
    ensures !IsHammer(c)
  {
  }

  /** Consequently, on histories built by the analyzer, the hammer score 20 never occurs. */
  lemma RectangleHistoryPatternScores(cs: seq<Candle>)
    requires |cs| > 0 && IsRectangleCandle(cs[|cs| - 1])
    ensures CheckPattern(cs).score in {25, 18, 0}
  {
    RectangleCandleIsNoHammer(cs[|cs| - 1]);
  }

  // ---------------------------------------------------------------------------
  // Layer 3: location

  function MaxOf(s: seq<real>): (m: real)
    requires |s| > 0
    ensures m in s
    ensures forall i :: 0 <= i < |s| ==> s[i] <= m
  {
    if |s| == 1 then s[0]
    else
      var rest := MaxOf(s[1..]);
      if s[0] >= rest then s[0] else rest
  }

  function MinOf(s: seq<real>): (m: real)
    requires |s| > 0
    ensures m in s
    ensures forall i :: 0 <= i < |s| ==> m <= s[i]
  {
    if |s| == 1 then s[0]
    else
      var rest := MinOf(s[1..]);
      if s[0] <= rest then s[0] else rest
  }

  function WickTops(cs: seq<Candle>): (tops: seq<real>)
    ensures |tops| == |cs| && forall i :: 0 <= i < |cs| ==> tops[i] == cs[i].wickTop
  {
    seq(|cs|, i requires 0 <= i < |cs| => cs[i].wickTop)
  }

  function WickBottoms(cs: seq<Candle>): (bottoms: seq<real>)
    ensures |bottoms| == |cs| && forall i :: 0 <= i < |cs| ==> bottoms[i] == cs[i].wickBottom
  {
    seq(|cs|, i requires 0 <= i < |cs| => cs[i].wickBottom)
  }

  /** The location layer; `cs` must be non-empty because the source calls last() on it. */
  function CheckLocation(cs: seq<Candle>): (score: int)
    requires |cs| > 0
    ensures |cs| < 2 ==> score == 0
    ensures |cs| >= 2 ==> score == 5 || score == 15
  {
    var last := cs[|cs| - 1];
    if |cs| < 2 then 0
    else
      var maxH := MaxOf(WickTops(cs));
      var minL := MinOf(WickBottoms(cs));
      var proximityTop := maxH - last.wickTop;
      var proximityBot := last.wickBottom - minL;
      if proximityTop < Proximity then 15
      else if proximityBot < Proximity then 15
      else 5
  }

  /**
   * The location score in terms of the history itself: 15 exactly when no wick
   * top lies 10 or more pixels beyond the last candle's top, or no wick bottom
   * lies 10 or more pixels short of the last candle's bottom; otherwise 5.
   */
  lemma LocationNearExtreme(cs: seq<Candle>)
    requires |cs| >= 2
    ensures var last := cs[|cs| - 1];
      CheckLocation(cs) == 15 <==>
        (forall i :: 0 <= i < |cs| ==> cs[i].wickTop - last.wickTop < Proximity) ||
        (forall i :: 0 <= i < |cs| ==> last.wickBottom - cs[i].wickBottom < Proximity)
    ensures CheckLocation(cs) != 15 ==> CheckLocation(cs) == 5
  {
    var last := cs[|cs| - 1];
    var tops, bottoms := WickTops(cs), WickBottoms(cs);
    var maxH, minL := MaxOf(tops), MinOf(bottoms);
    var k :| 0 <= k < |cs| && tops[k] == maxH;
    var j :| 0 <= j < |cs| && bottoms[j] == minL;
    assert cs[k].wickTop == maxH && cs[j].wickBottom == minL;
  }

  /** In particular a last candle holding the highest top or the lowest bottom scores 15. */
  lemma LastAtExtremeScoresHigh(cs: seq<Candle>)
    requires |cs| >= 2
    requires (forall i :: 0 <= i < |cs| ==> cs[i].wickTop <= cs[|cs| - 1].wickTop) ||
             (forall i :: 0 <= i < |cs| ==> cs[i].wickBottom >= cs[|cs| - 1].wickBottom)
    ensures CheckLocation(cs) == 15
  {
    LocationNearExtreme(cs);
  }

  // ---------------------------------------------------------------------------
  // Accuracy and the verdict

  function Clamp(x: int, lo: int, hi: int): int
  {
    if x < lo then lo else if x > hi then hi else x
  }

  /** The sum of the four layer scores, clamped to [0, 100]. */
  function Accuracy(cs: seq<Candle>): int
    requires |cs| > 0
  {
    Clamp(TrendScore(cs) + CheckPattern(cs).score + CheckLocation(cs) + IndicatorScore, 0, 100)
  }

  function DigitChar(d: nat): char
    requires d < 10
  {
    "0123456789"[d]
  }

  function NatToString(n: nat): string
  {
    if n < 10 then [DigitChar(n)] else NatToString(n / 10) + [DigitChar(n % 10)]
  }

  /** Kotlin's decimal rendering of an Int inside a string template. */
  function IntToString(i: int): string
  {
    if i < 0 then "-" + NatToString(-i) else NatToString(i)
  }

  /** The snapshot gets past the gate, trend and pattern layers and is scored. */
  predicate ReachesScoring(snapshot: CandleSnapshot)
  {
    && snapshot.message.None?
    && |snapshot.candles| >= MinCandles
    && TrendScore(snapshot.candles) >= MinTrendScore
    && CheckPattern(snapshot.candles).ok
  }

  /**
   * Never WAIT; the alert is raised exactly for BUY and SELL, and only when the
   * accuracy meets the threshold; the accuracy never exceeds 80.
   */
  function Evaluate(snapshot: CandleSnapshot, threshold: int := DefaultThreshold): (r: Result)
    ensures r.alert <==> r.decision == Buy || r.decision == Sell
    ensures r.decision != Wait
    ensures 0 <= r.accuracy <= 80
    ensures r.alert ==> threshold <= r.accuracy
  {
    match snapshot.message
    case Some(msg) => Result(NoTrade, 0, Message(msg), false)
    case None =>
      var candles := snapshot.candles;
      if |candles| < MinCandles then Result(NoTrade, 0, InsufficientCandles, false)
      else
        var trendScore := TrendScore(candles);
        if trendScore < MinTrendScore then Result(NoTrade, 0, MarketUnstable, false)
        else
          var pattern := CheckPattern(candles);
          if !pattern.ok then Result(NoTrade, 0, pattern.reason, false)
          else
            var locationScore := CheckLocation(candles);
            if locationScore < MinLocationScore then Result(Wait, 0, SetupIncomplete, false)
            else
              var accuracy := Clamp(trendScore + pattern.score + locationScore + IndicatorScore, 0, 100);
              if accuracy < threshold then Result(NoTrade, accuracy, Shortfall(accuracy, threshold), false)
              else
                var last := candles[|candles| - 1];
                Result(if last.bullish then Buy else Sell, accuracy, Direction(last.bullish), true)
  }

  /** The input gate: a message passes through unchanged; fewer than five candles are insufficient. */
  lemma InputGate(snapshot: CandleSnapshot, threshold: int)
    ensures snapshot.message.Some? ==>
      && Evaluate(snapshot, threshold) == Result(NoTrade, 0, Message(snapshot.message.value), false)
      && Evaluate(snapshot, threshold).reason.Text() == snapshot.message.value
    ensures snapshot.message.None? && |snapshot.candles| < MinCandles ==>
      Evaluate(snapshot, threshold) == Result(NoTrade, 0, InsufficientCandles, false)
  {
  }

  /** A verdict with non-zero accuracy was scored: every early exit reports accuracy 0. */
  lemma EarlyExitsReportZero(snapshot: CandleSnapshot, threshold: int)
    ensures !ReachesScoring(snapshot) ==> Evaluate(snapshot, threshold).accuracy == 0
    ensures ReachesScoring(snapshot) ==> Evaluate(snapshot, threshold).accuracy >= 45
  {
    if ReachesScoring(snapshot) {
      AccuracyBounds(snapshot);
      assert CheckLocation(snapshot.candles) >= MinLocationScore;
    }
  }

  /** The trend layer rejects with "Market unstable" and accuracy 0. */
  lemma TrendLayerRejects(snapshot: CandleSnapshot, threshold: int)
    requires snapshot.message.None? && |snapshot.candles| >= MinCandles
    requires TrendScore(snapshot.candles) < MinTrendScore
    ensures Evaluate(snapshot, threshold) == Result(NoTrade, 0, MarketUnstable, false)
  {
  }

  /** The pattern layer rejects with "Candle weak" and accuracy 0. */
  lemma PatternLayerRejects(snapshot: CandleSnapshot, threshold: int)
    requires snapshot.message.None? && |snapshot.candles| >= MinCandles
    requires TrendScore(snapshot.candles) >= MinTrendScore
    requires CheckPattern(snapshot.candles).score < MinPatternScore
    ensures Evaluate(snapshot, threshold) == Result(NoTrade, 0, CandleWeak, false)
  {
  }

  /** A scored snapshot has accuracy between 45 and 80, the unclamped sum of its layers. */
  lemma AccuracyBounds(snapshot: CandleSnapshot)
    requires ReachesScoring(snapshot)
    ensures var cs := snapshot.candles;
      Accuracy(cs) == TrendScore(cs) + CheckPattern(cs).score + CheckLocation(cs) + IndicatorScore
    ensures 45 <= Accuracy(snapshot.candles) <= 80
  {
    TrendGate(snapshot.candles);
  }

  /** Below the threshold the verdict is NO_TRADE carrying the accuracy, without alert. */
  lemma BelowThresholdRule(snapshot: CandleSnapshot, threshold: int)
    requires ReachesScoring(snapshot)
    requires Accuracy(snapshot.candles) < threshold
    ensures var acc := Accuracy(snapshot.candles);
      Evaluate(snapshot, threshold) == Result(NoTrade, acc, Shortfall(acc, threshold), false)
  {
    var cs := snapshot.candles;
    assert CheckLocation(cs) >= MinLocationScore;
  }

  /**
   * At or above the threshold the verdict is BUY for a bullish last candle and
   * SELL for a bearish one, with the alert raised.
   */
  lemma AtThresholdRule(snapshot: CandleSnapshot, threshold: int)
    requires ReachesScoring(snapshot)
    requires Accuracy(snapshot.candles) >= threshold
    ensures var cs := snapshot.candles;
      var last := cs[|cs| - 1];
      Evaluate(snapshot, threshold) ==
        Result(if last.bullish then Buy else Sell, Accuracy(cs), Direction(last.bullish), true)
  {
    var cs := snapshot.candles;
    var location := CheckLocation(cs);
    assert location >= MinLocationScore;
    var acc := Clamp(TrendScore(cs) + CheckPattern(cs).score + location + IndicatorScore, 0, 100);
    assert acc == Accuracy(cs) && !(acc < threshold);
  }

  /** Any threshold above 80 (such as the stored default 85) never yields BUY or SELL. */
  lemma HighThresholdNeverTrades(snapshot: CandleSnapshot, threshold: int)
    requires threshold > 80
    ensures Evaluate(snapshot, threshold).decision == NoTrade
    ensures !Evaluate(snapshot, threshold).alert
  {
  }

  /** A snapshot with a message yields NO_TRADE carrying that message, for any candle list. */
  lemma MessageOverridesCandles(candles: seq<Candle>, msg: string, threshold: int)
    ensures Evaluate(CandleSnapshot(candles, Some(msg)), threshold) == Result(NoTrade, 0, Message(msg), false)
  {
  }

  // ---------------------------------------------------------------------------
  // Worked scenarios

  /** A flat-topped candle at x with the given area and colour. */
  function ScenarioCandle(x: int, area: real, bullish: bool): Candle
  {
    Candle(x, 30.0, 100.0, 150.0, bullish, area)
  }

  /**
   * Any history of at least five candles of one common, non-negative area: the
   * flat pairs are all downs, so the trend layer passes with three points per
   * pair (at most 30). Equal areas are never engulfing, so the snapshot is
   * rejected as "Candle weak" exactly when the last candle is not a hammer and
   * its area is at most 200; otherwise it is scored.
   */
  lemma FlatAreasVerdict(cs: seq<Candle>, threshold: int)
    requires |cs| >= MinCandles
    requires forall i :: 0 < i < |cs| ==> cs[i].area == cs[i - 1].area
    requires cs[|cs| - 1].area >= 0.0
    ensures TrendScore(cs) == 3 * AtMost(|cs| - 1, 10)
    ensures var last := cs[|cs| - 1];
      !IsHammer(last) && last.area <= 200.0 ==>
        Evaluate(FromList(cs), threshold) == Result(NoTrade, 0, CandleWeak, false)
    ensures var last := cs[|cs| - 1];
      ReachesScoring(FromList(cs)) <==> IsHammer(last) || last.area > 200.0
  {
    FlatAreasCountAsDowns(cs);
    assert !IsEngulfing(cs[|cs| - 1], cs[|cs| - 2]);
  }

  /**
   * Five candles of equal area 10: the flat pairs count as four downs, so the
   * trend layer passes with 12 points and the snapshot is rejected by the
   * pattern layer ("Candle weak"), not by the trend layer.
   */
  lemma FlatAreasRejectedAsWeakCandle()
    ensures var cs := [ScenarioCandle(10, 10.0, true), ScenarioCandle(20, 10.0, true),
                       ScenarioCandle(30, 10.0, true), ScenarioCandle(40, 10.0, true),
                       ScenarioCandle(50, 10.0, true)];
      && TrendScore(cs) == 12
      && Evaluate(FromList(cs), 80) == Result(NoTrade, 0, CandleWeak, false)
  {
    var cs := [ScenarioCandle(10, 10.0, true), ScenarioCandle(20, 10.0, true),
               ScenarioCandle(30, 10.0, true), ScenarioCandle(40, 10.0, true),
               ScenarioCandle(50, 10.0, true)];
    FlatAreasCountAsDowns(cs);
  }

  /**
   * Areas 10, 20, 30, 40, 220 with a bullish last candle at the top extreme:
   * four ups give a trend of 12, engulfing 25, location 15, indicator 10, so the
   * accuracy is 62; at threshold 80 the verdict is NO_TRADE, and at threshold 62
   * it is BUY.
   */
  lemma RisingAreasScoreSixtyTwo()
    ensures var cs := [ScenarioCandle(10, 10.0, true), ScenarioCandle(20, 20.0, true),
                       ScenarioCandle(30, 30.0, true), ScenarioCandle(40, 40.0, true),
                       ScenarioCandle(50, 220.0, true)];
      && Evaluate(FromList(cs), 80) == Result(NoTrade, 62, Shortfall(62, 80), false)
      && Evaluate(FromList(cs), 62) == Result(Buy, 62, Direction(true), true)
  {
    var cs := [ScenarioCandle(10, 10.0, true), ScenarioCandle(20, 20.0, true),
               ScenarioCandle(30, 30.0, true), ScenarioCandle(40, 40.0, true),
               ScenarioCandle(50, 220.0, true)];
    RisingAreasCountAsUps(cs);
    assert TrendScore(cs) == 12;
    assert CheckPattern(cs).score == 25;
    LastAtExtremeScoresHigh(cs);
  }
}
