/**
 * The prediction result card (frontend/src/components/detection/PredictionResults.tsx): the
 * isolation-forest score turned into a 0-100 risk percentage and into an anomaly level, the
 * class probabilities ordered for the bar chart, and the colours of the risk indicators.
 */
module PredictionResults {
  import opened Sorting
  import Dashboard

  // ---------------------------------------------------------------- risk score

  /** The score at which the risk is 100%. */
  const MIN_SCORE: real := -0.85
  /** The score at which the risk is 0%. */
  const MAX_SCORE: real := -0.45

  function Clamp(lo: real, hi: real, x: real): real {
    if x < lo then lo else if x > hi then hi else x
  }

  /** `calculateRiskScore`: `Math.max(0, Math.min(100, (maxScore - raw) / (maxScore - minScore) * 100))`. */
  function RiskScore(raw: real): (risk: real)
    ensures 0.0 <= risk <= 100.0
  {
    Clamp(0.0, 100.0, (MAX_SCORE - raw) / (MAX_SCORE - MIN_SCORE) * 100.0)
  }

  /**
   * No risk at or above -0.45, full risk at or below -0.85, and in between the share of the
   * way from -0.45 down to -0.85 that the score has gone.
   */
  lemma RiskScoreSpec(raw: real)
    ensures raw >= MAX_SCORE ==> RiskScore(raw) == 0.0
    ensures raw <= MIN_SCORE ==> RiskScore(raw) == 100.0
    ensures MIN_SCORE <= raw <= MAX_SCORE ==> RiskScore(raw) * (MAX_SCORE - MIN_SCORE) == (MAX_SCORE - raw) * 100.0
  {
  }

  /** A lower score never gives a lower risk. */
  lemma RiskScoreMonotone(a: real, b: real)
    requires a <= b
    ensures RiskScore(a) >= RiskScore(b)
  {
  }

  // ---------------------------------------------------------------- anomaly level

  /** The result of `getAnomalyLevel`: the label and its three colour classes. */
  datatype Level = Level(level: string, color: string, bgColor: string, textColor: string)

  const NORMAL := Level("Baja (Normal)", "green", "bg-green-100", "text-green-900")
  const MEDIUM := Level("Media", "yellow", "bg-yellow-100", "text-yellow-900")
  const HIGH := Level("Alta", "orange", "bg-orange-100", "text-orange-900")
  const CRITICAL := Level("Crítica", "red", "bg-red-100", "text-red-900")

  const MEDIUM_BOUND: real := -0.60
  const HIGH_BOUND: real := -0.70

  function AnomalyLevel(isAnomaly: bool, score: real): Level {
    if !isAnomaly then NORMAL
    else if score > MEDIUM_BOUND then MEDIUM
    else if score > HIGH_BOUND then HIGH
    else CRITICAL
  }

  /**
   * Normal whenever no anomaly was detected, whatever the score; for a detected anomaly,
   * medium above -0.60, high in (-0.70, -0.60], critical at or below -0.70.
   */
  lemma AnomalyLevelSpec(isAnomaly: bool, score: real)
    ensures AnomalyLevel(isAnomaly, score) == NORMAL <==> !isAnomaly
    ensures AnomalyLevel(isAnomaly, score) == MEDIUM <==> isAnomaly && score > MEDIUM_BOUND
    ensures AnomalyLevel(isAnomaly, score) == HIGH <==> isAnomaly && HIGH_BOUND < score <= MEDIUM_BOUND
    ensures AnomalyLevel(isAnomaly, score) == CRITICAL <==> isAnomaly && score <= HIGH_BOUND
  {
  }

  /** Rank of a level: 0 normal, 1 medium, 2 high, 3 critical. */
  function LevelRank(l: Level): nat {
    if l == CRITICAL then 3 else if l == HIGH then 2 else if l == MEDIUM then 1 else 0
  }

  /** A detected anomaly with a lower score is never given a milder level. */
  lemma AnomalyLevelMonotone(a: real, b: real)
    requires a <= b
    ensures LevelRank(AnomalyLevel(true, a)) >= LevelRank(AnomalyLevel(true, b))
  {
  }

  // ---------------------------------------------------------------- probabilities

  /** One entry of `clasificacion.probabilidades`: a price range and its probability. */
  datatype Probability = Probability(rango: string, prob: real)

  /** A bar of `probabilityData`: the range, the percentage as displayed, and the raw probability. */
  datatype ProbabilityBar = ProbabilityBar(rango: string, probabilidad: string, probValue: real)

  function ToBar(p: Probability, fixed: Dashboard.Formatter): ProbabilityBar {
    ProbabilityBar(p.rango, fixed(p.prob * 100.0, 1), p.prob)
  }

  function ToBars(ps: seq<Probability>, fixed: Dashboard.Formatter): (bars: seq<ProbabilityBar>)
    ensures |bars| == |ps|
    ensures forall i | 0 <= i < |ps| :: bars[i] == ToBar(ps[i], fixed)
  {
    seq(|ps|, i requires 0 <= i < |ps| => ToBar(ps[i], fixed))
  }

  /** `(a, b) => b.probValue - a.probValue`: higher probabilities first. */
  predicate ByProbDesc(a: ProbabilityBar, b: ProbabilityBar) {
    a.probValue >= b.probValue
  }

  lemma ByProbDescTotal()
    ensures TotalPreorder(ByProbDesc)
  {
  }

  /** `probabilityData` after its in-place sort. */
  function ProbabilityData(ps: seq<Probability>, fixed: Dashboard.Formatter): (bars: seq<ProbabilityBar>)
    ensures |bars| == |ps|
  {
    SortBy(ToBars(ps, fixed), ByProbDesc)
  }

  /**
   * One bar per class, by non-increasing probability; each bar is some class's range with its
   * probability, every class has its bar, and classes with equal probability keep their order.
   */
  lemma ProbabilityDataSpec(ps: seq<Probability>, fixed: Dashboard.Formatter)
    ensures var bars := ProbabilityData(ps, fixed);
      && SortedBy(bars, ByProbDesc)
      && multiset(bars) == multiset(ToBars(ps, fixed))
      && (forall i | 0 <= i < |bars| :: exists j | 0 <= j < |ps| :: bars[i] == ToBar(ps[j], fixed))
      && (forall j | 0 <= j < |ps| :: ToBar(ps[j], fixed) in bars)
      && (forall y :: Ties(bars, y, ByProbDesc) == Ties(ToBars(ps, fixed), y, ByProbDesc))
  {
    var bars, raw := ProbabilityData(ps, fixed), ToBars(ps, fixed);
    ByProbDescTotal();
    SortBySorted(raw, ByProbDesc);
    forall y {
      SortByStable(raw, y, ByProbDesc);
    }
    forall i | 0 <= i < |bars| ensures exists j | 0 <= j < |ps| :: bars[i] == ToBar(ps[j], fixed) {
      assert bars[i] in multiset(raw);
      var j :| 0 <= j < |raw| && raw[j] == bars[i];
    }
    forall j | 0 <= j < |ps| ensures ToBar(ps[j], fixed) in bars {
      assert raw[j] in multiset(bars);
    }
  }

  // ---------------------------------------------------------------- indicator colours

  datatype Tone = Red | Yellow | Green

  /** The progress bar: red above 75%, yellow above 40%, green otherwise. */
  function BarTone(risk: real): Tone {
    if risk > 75.0 then Red else if risk > 40.0 then Yellow else Green
  }

  /** The line on top of the card: red above 50%, green otherwise. */
  function LineTone(risk: real): Tone {
    if risk > 50.0 then Red else Green
  }

  /** In terms of the raw score: the bar is red below -0.75, and the line red below -0.65. */
  lemma TonesOfScore(raw: real)
    ensures BarTone(RiskScore(raw)) == Red <==> raw < -0.75
    ensures BarTone(RiskScore(raw)) == Yellow <==> -0.75 <= raw < -0.61
    ensures BarTone(RiskScore(raw)) == Green <==> raw >= -0.61
    ensures LineTone(RiskScore(raw)) == Red <==> raw < -0.65
  {
  }

  /** The line is red whenever the bar is, and never when the bar is green. */
  lemma TonesAgree(risk: real)
    ensures BarTone(risk) == Red ==> LineTone(risk) == Red
    ensures BarTone(risk) == Green ==> LineTone(risk) == Green
  {
  }
}
