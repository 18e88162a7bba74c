/** The five indicator analyzers of `scripts/indicators.py`. Each reduces a price
    history to a signal: a score from 1 (strong bearish) to 5 (strong bullish),
    a suggested entry price and a suggested exit price. The indicator series
    themselves (EMA, RSI, ADX with its directional components, the Donchian
    bands) come from the `ta` library and are inputs here, one value per bar. */
module Indicators {
  import opened Market

  datatype Signal = Signal(score: int, entry: Option<real>, exit: Option<real>)

  /** What every analyzer returns when it has too little history or no signal. */
  const Neutral := Signal(3, None, None)

  const EmaMinBars := 50
  const RsiMinBars := 14
  const AdxMinBars := 14
  const DonchianMinBars := 20
  const VolumeMinBars := 20
  /** The rolling window of the volume average. */
  const VolumeWindow := 20

  /** The series the `ta` library computes for a history, aligned bar by bar. */
  datatype Series = Series(
    emaFast: seq<real>,    // EMA of close, window 20
    emaSlow: seq<real>,    // EMA of close, window 50
    rsi: seq<real>,        // RSI, window 14
    adx: seq<real>,        // ADX, window 14
    plusDi: seq<real>,     // +DI
    minusDi: seq<real>,    // -DI
    upperBand: seq<real>,  // Donchian highest high, window 20
    lowerBand: seq<real>)  // Donchian lowest low, window 20

  predicate AlignedWith(s: Series, n: nat)
  {
    |s.emaFast| == n && |s.emaSlow| == n && |s.rsi| == n && |s.adx| == n &&
    |s.plusDi| == n && |s.minusDi| == n && |s.upperBand| == n && |s.lowerBand| == n
  }

  /** The `ta` library gives one value per bar of the history it is handed. */
  ghost predicate TaAligned(ta: seq<Bar> -> Series)
  {
    forall h {:trigger ta(h)} :: AlignedWith(ta(h), |h|)
  }

  /** Every script skips a history shorter than this before scoring it
      ("minimum length for most indicators"). */
  const MinHistory := 50

  /** The contract every analyzer keeps: the score is 1..5, an entry price is
      given exactly for the bullish scores 4 and 5, an exit price exactly for the
      bearish scores 1 and 2, and any price given is the latest close. */
  predicate WellFormed(r: Signal, h: seq<Bar>)
  {
    && 1 <= r.score <= 5
    && (r.entry.Some? <==> r.score >= 4)
    && (r.exit.Some? <==> r.score <= 2)
    && (r.entry.Some? ==> |h| > 0 && r.entry.value == Last(h).close)
    && (r.exit.Some? ==> |h| > 0 && r.exit.value == Last(h).close)
  }

  lemma EntryExitExclusive(r: Signal, h: seq<Bar>)
    requires WellFormed(r, h)
    ensures !(r.entry.Some? && r.exit.Some?)
    ensures r.score == 3 <==> r.entry.None? && r.exit.None?
  {
  }

  function Enter(score: int, h: seq<Bar>): Signal
    requires |h| > 0
  {
    Signal(score, Some(Last(h).close), None)
  }

  function Exit(score: int, h: seq<Bar>): Signal
    requires |h| > 0
  {
    Signal(score, None, Some(Last(h).close))
  }

  // ---- EMA crossover ----

  /** The fast EMA is strictly above the slow one at bar `k`. */
  predicate FastAbove(s: Series, k: nat)
    requires k < |s.emaFast| && k < |s.emaSlow|
  {
    s.emaFast[k] > s.emaSlow[k]
  }

  predicate FastBelow(s: Series, k: nat)
    requires k < |s.emaFast| && k < |s.emaSlow|
  {
    s.emaFast[k] < s.emaSlow[k]
  }

  function AnalyzeEma(h: seq<Bar>, s: Series): (r: Signal)
    requires AlignedWith(s, |h|)
    ensures WellFormed(r, h)
    ensures |h| < EmaMinBars ==> r == Neutral
    ensures |h| >= EmaMinBars ==> r.score != 3
  {
    var n := |h|;
    if n >= EmaMinBars then
      if FastAbove(s, n - 1) && FastBelow(s, n - 2) then Enter(5, h)        // golden cross
      else if FastBelow(s, n - 1) && FastAbove(s, n - 2) then Exit(1, h)   // death cross
      else if FastAbove(s, n - 1) then Enter(4, h)
      else Exit(2, h)
    else Neutral
  }

  /** With enough history the EMA analyzer is bullish exactly when the fast
      EMA is strictly above the slow one at the latest bar. */
  lemma EmaBullishIffFastAbove(h: seq<Bar>, s: Series)
    requires AlignedWith(s, |h|) && |h| >= EmaMinBars
    ensures AnalyzeEma(h, s).score >= 4 <==> FastAbove(s, |h| - 1)
  {
  }

  /** The strong scores need a strict cross between the last two bars; equal
      EMAs at the latest bar read as mildly bearish. */
  lemma EmaStrongOnlyOnCross(h: seq<Bar>, s: Series)
    requires AlignedWith(s, |h|) && |h| >= EmaMinBars
    ensures AnalyzeEma(h, s).score == 5 <==> FastAbove(s, |h| - 1) && FastBelow(s, |h| - 2)
    ensures AnalyzeEma(h, s).score == 1 <==> FastBelow(s, |h| - 1) && FastAbove(s, |h| - 2)
    ensures s.emaFast[|h| - 1] == s.emaSlow[|h| - 1] ==> AnalyzeEma(h, s).score == 2
  {
  }

  // ---- RSI divergence and thresholds ----

  predicate BullishDivergence(h: seq<Bar>, s: Series)
    requires AlignedWith(s, |h|) && |h| >= 2
  {
    h[|h| - 1].close < h[|h| - 2].close && s.rsi[|h| - 1] > s.rsi[|h| - 2]
  }

  predicate BearishDivergence(h: seq<Bar>, s: Series)
    requires AlignedWith(s, |h|) && |h| >= 2
  {
    h[|h| - 1].close > h[|h| - 2].close && s.rsi[|h| - 1] < s.rsi[|h| - 2]
  }

  function AnalyzeRsi(h: seq<Bar>, s: Series): (r: Signal)
    requires AlignedWith(s, |h|)
    ensures WellFormed(r, h)
    ensures |h| < RsiMinBars ==> r == Neutral
  {
    var n := |h|;
    if n >= RsiMinBars then
      if BullishDivergence(h, s) then Enter(5, h)
      else if BearishDivergence(h, s) then Exit(1, h)
      else if s.rsi[n - 1] < 30.0 then Enter(4, h)   // oversold
      else if s.rsi[n - 1] > 70.0 then Exit(2, h)    // overbought
      else Neutral
    else Neutral
  }

  /** Divergence wins over the thresholds: a falling close with a rising RSI
      is strongly bullish even when the RSI is overbought, and the mirror case
      is strongly bearish even when it is oversold. */
  lemma RsiDivergenceFirst(h: seq<Bar>, s: Series)
    requires AlignedWith(s, |h|) && |h| >= RsiMinBars
    ensures BullishDivergence(h, s) ==> AnalyzeRsi(h, s).score == 5
    ensures BearishDivergence(h, s) ==> AnalyzeRsi(h, s).score == 1
  {
  }

  /** Without a divergence the thresholds decide: below 30 mildly bullish,
      above 70 mildly bearish, neutral in [30, 70]. */
  lemma RsiThresholds(h: seq<Bar>, s: Series)
    requires AlignedWith(s, |h|) && |h| >= RsiMinBars
    requires !BullishDivergence(h, s) && !BearishDivergence(h, s)
    ensures AnalyzeRsi(h, s).score == 4 <==> s.rsi[|h| - 1] < 30.0
    ensures AnalyzeRsi(h, s).score == 2 <==> s.rsi[|h| - 1] > 70.0
    ensures AnalyzeRsi(h, s).score == 3 <==> 30.0 <= s.rsi[|h| - 1] <= 70.0
  {
  }

  // ---- ADX trend strength ----

  function AnalyzeAdx(h: seq<Bar>, s: Series): (r: Signal)
    requires AlignedWith(s, |h|)
    ensures WellFormed(r, h)
    ensures |h| < AdxMinBars ==> r == Neutral
    ensures r.score in {1, 3, 5}
  {
    var n := |h|;
    if n >= AdxMinBars then
      if s.adx[n - 1] > 25.0 then
        if s.plusDi[n - 1] > s.minusDi[n - 1] then Enter(5, h)   // strong up-trend
        else Exit(1, h)                                          // strong down-trend
      else if s.adx[n - 1] < 20.0 then Neutral                   // weak trend
      else Neutral                                               // [20, 25] falls through
    else Neutral
  }

  /** A strong signal needs ADX strictly above 25; the direction then comes
      from a strict comparison of the directional components, so a tie is
      bearish. */
  lemma AdxStrongTrend(h: seq<Bar>, s: Series)
    requires AlignedWith(s, |h|) && |h| >= AdxMinBars
    ensures AnalyzeAdx(h, s).score != 3 <==> s.adx[|h| - 1] > 25.0
    ensures AnalyzeAdx(h, s).score == 5 <==> s.adx[|h| - 1] > 25.0 && s.plusDi[|h| - 1] > s.minusDi[|h| - 1]
  {
  }

  // ---- Donchian breakout ----

  function AnalyzeDonchian(h: seq<Bar>, s: Series): (r: Signal)
    requires AlignedWith(s, |h|)
    ensures WellFormed(r, h)
    ensures |h| < DonchianMinBars ==> r == Neutral
    ensures r.score in {1, 3, 5}
  {
    var n := |h|;
    if n >= DonchianMinBars then
      // the latest close against the previous bar's bands
      if h[n - 1].close > s.upperBand[n - 2] then Enter(5, h)
      else if h[n - 1].close < s.lowerBand[n - 2] then Exit(1, h)
      else Neutral
    else Neutral
  }

  /** The breakout tests are strict and look at the previous bar's channel: a
      close inside or on the edges of that channel is neutral, whatever the
      latest bar's own bands are. */
  lemma DonchianInsideChannel(h: seq<Bar>, s: Series)
    requires AlignedWith(s, |h|) && |h| >= DonchianMinBars
    requires s.lowerBand[|h| - 2] <= Last(h).close <= s.upperBand[|h| - 2]
    ensures AnalyzeDonchian(h, s) == Neutral
  {
  }

  /** From twenty bars on: 5 exactly for a close above the previous bar's
      upper band, 1 exactly for a close below its lower band (and not above
      the upper one). */
  lemma DonchianBreakouts(h: seq<Bar>, s: Series)
    requires AlignedWith(s, |h|) && |h| >= DonchianMinBars
    ensures AnalyzeDonchian(h, s).score == 5 <==> Last(h).close > s.upperBand[|h| - 2]
    ensures AnalyzeDonchian(h, s).score == 1 <==>
              Last(h).close < s.lowerBand[|h| - 2] && !(Last(h).close > s.upperBand[|h| - 2])
  {
  }

  // ---- volume confirmation ----

  function VolumeSum(bars: seq<Bar>): real
  {
    if bars == [] then 0.0 else VolumeSum(bars[..|bars| - 1]) + Last(bars).volume
  }

  /** `data['Volume'].rolling(window=20).mean()` at the latest bar: the mean of
      the last twenty volumes, the latest one included. */
  function AverageVolume(h: seq<Bar>): real
    requires |h| >= VolumeWindow
  {
    VolumeSum(h[|h| - VolumeWindow..]) / VolumeWindow as real
  }

  /** The latest volume is above its own 20-bar average. */
  predicate HighVolume(h: seq<Bar>)
    requires |h| >= VolumeWindow
  {
    Last(h).volume > AverageVolume(h)
  }

  function AnalyzeVolume(h: seq<Bar>): (r: Signal)
    ensures WellFormed(r, h)
    ensures |h| < VolumeMinBars ==> r == Neutral
    ensures r.score in {1, 3, 5}
  {
    var n := |h|;
    if n >= VolumeMinBars then
      if h[n - 1].close > h[n - 2].close && HighVolume(h) then Enter(5, h)
      else if h[n - 1].close < h[n - 2].close && HighVolume(h) then Exit(1, h)
      else Neutral
    else Neutral
  }

  lemma {:induction false} VolumeSumLowerBound(bars: seq<Bar>, v: real)
    requires forall b :: b in bars ==> b.volume >= v
    ensures VolumeSum(bars) >= |bars| as real * v
  {
    if bars != [] {
      var init := bars[..|bars| - 1];
      assert forall b :: b in init ==> b in bars;
      VolumeSumLowerBound(init, v);
    }
  }

  /** Above-average volume needs a quieter bar in the window: if no volume of
      the last twenty is below the latest one, the average is at least the
      latest volume and the analyzer cannot fire. */
  lemma HighVolumeNeedsQuieterBar(h: seq<Bar>)
    requires |h| >= VolumeWindow && HighVolume(h)
    ensures exists i :: |h| - VolumeWindow <= i < |h| && h[i].volume < Last(h).volume
  {
    var w := h[|h| - VolumeWindow..];
    if forall i :: |h| - VolumeWindow <= i < |h| ==> h[i].volume >= Last(h).volume {
      forall b | b in w ensures b.volume >= Last(h).volume {
        var k :| 0 <= k < |w| && w[k] == b;
        assert h[|h| - VolumeWindow + k] == b;
      }
      VolumeSumLowerBound(w, Last(h).volume);
      assert false;
    }
  }

  /** From twenty bars on: 5 exactly for a rising close on above-average
      volume, 1 exactly for a falling close on above-average volume. */
  lemma VolumeSignals(h: seq<Bar>)
    requires |h| >= VolumeMinBars
    ensures AnalyzeVolume(h).score == 5 <==> h[|h| - 1].close > h[|h| - 2].close && HighVolume(h)
    ensures AnalyzeVolume(h).score == 1 <==> h[|h| - 1].close < h[|h| - 2].close && HighVolume(h)
  {
  }

  /** Twenty equal volumes, or a close unchanged from the previous bar, give
      the neutral score. */
  lemma VolumeNeutralCases(h: seq<Bar>)
    requires |h| >= VolumeMinBars
    requires (forall i :: |h| - VolumeWindow <= i < |h| ==> h[i].volume == Last(h).volume)
          || h[|h| - 1].close == h[|h| - 2].close
    ensures AnalyzeVolume(h) == Neutral
  {
    if HighVolume(h) {
      HighVolumeNeedsQuieterBar(h);
    }
  }

  // ---- composite ----

  /** The total score every script computes: the unweighted mean of the five
      analyzer scores. */
  function TotalScore(ema: int, rsi: int, adx: int, donchian: int, volume: int): (t: real)
    ensures t * 5.0 == (ema + rsi + adx + donchian + volume) as real
    ensures 1 <= ema <= 5 && 1 <= rsi <= 5 && 1 <= adx <= 5 && 1 <= donchian <= 5 && 1 <= volume <= 5
            ==> 1.0 <= t <= 5.0
  {
    (ema + rsi + adx + donchian + volume) as real / 5.0
  }

  /** The five analyzer scores of one history. */
  datatype Scores = Scores(ema: int, rsi: int, adx: int, donchian: int, volume: int)

  function ScoreHistory(h: seq<Bar>, s: Series): (r: Scores)
    requires AlignedWith(s, |h|)
    ensures 1 <= r.ema <= 5 && 1 <= r.rsi <= 5
    ensures r.adx in {1, 3, 5} && r.donchian in {1, 3, 5} && r.volume in {1, 3, 5}
  {
    Scores(AnalyzeEma(h, s).score, AnalyzeRsi(h, s).score, AnalyzeAdx(h, s).score,
           AnalyzeDonchian(h, s).score, AnalyzeVolume(h).score)
  }

  function Composite(sc: Scores): (t: real)
  {
    TotalScore(sc.ema, sc.rsi, sc.adx, sc.donchian, sc.volume)
  }

  lemma CompositeInRange(h: seq<Bar>, s: Series)
    requires AlignedWith(s, |h|)
    ensures 1.0 <= Composite(ScoreHistory(h, s)) <= 5.0
  {
  }
}
