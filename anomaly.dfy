/**
 * The anomaly record shown by the dashboard (`AnomalyRecord` in frontend/src/types/anomaly.ts)
 * and the score thresholds shared by the dashboard and map aggregations: an isolation-forest
 * score below -0.05 is high ("alta"), below -0.01 medium ("media"), anything else low ("baja").
 */
module Anomaly {
  import opened Wrappers

  datatype Severity = Alta | Media | Baja

  datatype Review = Pendiente | EnRevision | Cerrada

  datatype AnomalyRecord = AnomalyRecord(
    id: string,
    ciudad: string,
    municipio: string,
    departamento: string,
    severidad: Severity,
    tipo: string,
    fecha: string,
    valorTransaccion: real,
    areaConstruida: real,
    estadoRevision: Review)

  const HIGH_THRESHOLD: real := -0.05
  const MEDIUM_THRESHOLD: real := -0.01

  /** `if (score < -0.05) alta else if (score < -0.01) media else baja`. */
  function Classify(score: real): (s: Severity)
    ensures s == Alta <==> score < HIGH_THRESHOLD
    ensures s == Media <==> HIGH_THRESHOLD <= score < MEDIUM_THRESHOLD
    ensures s == Baja <==> MEDIUM_THRESHOLD <= score
  {
    if score < HIGH_THRESHOLD then Alta
    else if score < MEDIUM_THRESHOLD then Media
    else Baja
  }

  /** The same chain on `parseFloat`'s result: `NaN` fails both comparisons and is low. */
  function ClassifyParsed(score: Option<real>): (s: Severity)
    ensures score == None ==> s == Baja
    ensures score.Some? ==> s == Classify(score.value)
  {
    match score
    case None => Baja
    case Some(v) => Classify(v)
  }

  /** The severity as the frontend spells it: `"alta" | "media" | "baja"`. */
  function SeverityName(s: Severity): string {
    match s
    case Alta => "alta"
    case Media => "media"
    case Baja => "baja"
  }

  /** How severe: 2 for high, 1 for medium, 0 for low. */
  function Rank(s: Severity): nat {
    match s
    case Alta => 2
    case Media => 1
    case Baja => 0
  }

  /** A lower (more anomalous) score is never classified less severe. */
  lemma ClassifyMonotone(a: real, b: real)
    requires a <= b
    ensures Rank(Classify(a)) >= Rank(Classify(b))
  {
  }
}
