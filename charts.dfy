/**
 * The figures the dashboard charts derive on the client from the anomalies they are given
 * (frontend/src/components/dashboard/DashboardCharts.tsx): the five municipalities with most
 * anomalies, the six most frequent anomaly types, the severity bars coloured by name, and the
 * number of affected municipalities.
 */
module Charts {
  import opened Wrappers
  import opened Text
  import opened Grouping
  import opened Sorting
  import opened Scan
  import opened Anomaly
  import Dashboard

  const TOP_MUNICIPALITIES: nat := 5
  const TOP_TYPES: nat := 6

  // ---------------------------------------------------------------- municipalities

  /** The grouping key of an anomaly: `${a.ciudad}, ${a.municipio}`. */
  function MunicipioKey(a: AnomalyRecord): string {
    a.ciudad + ", " + a.municipio
  }

  function MunicipioKeys(anomalias: seq<AnomalyRecord>): (ks: seq<string>)
    ensures |ks| == |anomalias|
    ensures forall i | 0 <= i < |ks| :: ks[i] == MunicipioKey(anomalias[i])
  {
    seq(|anomalias|, i requires 0 <= i < |anomalias| => MunicipioKey(anomalias[i]))
  }

  /**
   * `municipiosCounts`: counts per key in order of first appearance. Every key contains ", ",
   * so none is an array index and the object's own order is insertion order.
   */
  function MunicipiosCounts(anomalias: seq<AnomalyRecord>): seq<Entry<string>> {
    Tally(MunicipioKeys(anomalias))
  }

  /** `topMunicipios`: the counts sorted by decreasing count, first five. */
  function TopMunicipios(anomalias: seq<AnomalyRecord>): (top: seq<Entry<string>>)
    ensures |top| <= TOP_MUNICIPALITIES
  {
    Take(SortBy(MunicipiosCounts(anomalias), ByCountDesc), TOP_MUNICIPALITIES)
  }

  /**
   * At most five entries, by non-increasing count, each a key `"<ciudad>, <municipio>"` of some
   * anomaly with its number of anomalies, together counting no more than all the anomalies;
   * a key left out has no more anomalies than any key shown.
   */
  lemma TopMunicipiosSpec(anomalias: seq<AnomalyRecord>)
    ensures var top, ks := TopMunicipios(anomalias), MunicipioKeys(anomalias);
      && |top| == Min(TOP_MUNICIPALITIES, |Dedup(ks)|)
      && SortedBy(top, ByCountDesc)
      && Distinct(Keys(top))
      && (forall i | 0 <= i < |top| ::
            && (exists j | 0 <= j < |anomalias| :: top[i].key == MunicipioKey(anomalias[j]))
            && top[i].count == multiset(ks)[top[i].key] >= 1)
      && (forall i, d | 0 <= i < |top| && d in ks && d !in Keys(top) :: multiset(ks)[d] <= top[i].count)
      && SumCounts(top) <= |anomalias|
  {
    var ks := MunicipioKeys(anomalias);
    var sorted := SortBy(Tally(ks), ByCountDesc);
    TopCounts(ks, TOP_MUNICIPALITIES);
    SumTake(sorted, TOP_MUNICIPALITIES);
    SortedCounts(ks);
    var top := TopMunicipios(anomalias);
    forall i | 0 <= i < |top| ensures exists j | 0 <= j < |anomalias| :: top[i].key == MunicipioKey(anomalias[j]) {
      var j :| 0 <= j < |ks| && ks[j] == top[i].key;
    }
  }

  /** "Municipios afectados", `Object.keys(municipiosCounts).length`: the number of distinct keys. */
  function AffectedMunicipalities(anomalias: seq<AnomalyRecord>): nat {
    |MunicipiosCounts(anomalias)|
  }

  /** One per distinct key: at most the number of anomalies, and zero only when there are none. */
  lemma AffectedSpec(anomalias: seq<AnomalyRecord>)
    ensures var ks := MunicipioKeys(anomalias);
      && AffectedMunicipalities(anomalias) == |Dedup(ks)|
      && AffectedMunicipalities(anomalias) <= |anomalias|
      && (AffectedMunicipalities(anomalias) == 0 <==> anomalias == [])
  {
    var ks := MunicipioKeys(anomalias);
    TallyEntries(ks);
    DedupLength(ks);
  }

  // ---------------------------------------------------------------- types

  /** `nombre.replace(/_/g, " ").toLowerCase()`. */
  function TypeName(tipo: string): string {
    ToLower(ReplaceAll(tipo, '_', ' '))
  }

  /** An entry of `tiposCounts` with its label rewritten; the count is kept. */
  function Relabel(e: Entry<string>): Entry<string> {
    Entry(TypeName(e.key), e.count)
  }

  function Tipos(anomalias: seq<AnomalyRecord>): (ts: seq<string>)
    ensures |ts| == |anomalias|
    ensures forall i | 0 <= i < |ts| :: ts[i] == anomalias[i].tipo
  {
    seq(|anomalias|, i requires 0 <= i < |anomalias| => anomalias[i].tipo)
  }

  /** `Object.entries(tiposCounts).map(...)`: the counts per raw type, relabelled entry by entry. */
  function Relabelled(anomalias: seq<AnomalyRecord>): seq<Entry<string>> {
    MapSeq(Tally(Tipos(anomalias)), Relabel)
  }

  /** `tiposData`: the relabelled counts sorted by decreasing count, first six. */
  function TiposData(anomalias: seq<AnomalyRecord>): (r: seq<Entry<string>>)
    ensures |r| <= TOP_TYPES
  {
    Take(SortBy(Relabelled(anomalias), ByCountDesc), TOP_TYPES)
  }

  /** Relabelling keeps each entry's count, so it keeps the total. */
  lemma {:induction false} RelabelSum(m: seq<Entry<string>>)
    ensures SumCounts(MapSeq(m, Relabel)) == SumCounts(m)
  {
    if m != [] {
      var init := m[..|m| - 1];
      RelabelSum(init);
      SumAppend(MapSeq(init, Relabel), Relabel(m[|m| - 1]));
      EntriesLast(m);
    }
  }

  /** Each relabelled entry is the label of a type that occurs, with that type's number of anomalies. */
  lemma RelabelledEntries(anomalias: seq<AnomalyRecord>, p: nat)
    requires p < |Relabelled(anomalias)|
    ensures var ts, e := Tipos(anomalias), Relabelled(anomalias)[p];
      exists t | t in ts :: e.key == TypeName(t) && e.count == multiset(ts)[t] >= 1
  {
    var ts := Tipos(anomalias);
    var m := Tally(ts);
    TallyEntries(ts);
    MapSeqAt(m, Relabel, p);
    assert m[p].key in ts;
  }

  /** The sorted, capped relabelled counts: length, order, what is left out, and the total. */
  lemma TiposShape(anomalias: seq<AnomalyRecord>)
    ensures var r, ts, rel := TiposData(anomalias), Tipos(anomalias), Relabelled(anomalias);
      && |r| == Min(TOP_TYPES, |Dedup(ts)|)
      && SortedBy(r, ByCountDesc)
      && multiset(r) <= multiset(rel)
      && (forall a, b | a in r && b in multiset(rel) - multiset(r) :: a.count >= b.count)
      && SumCounts(r) <= |anomalias|
  {
    TiposLength(anomalias);
    TiposTop(anomalias);
    TiposSorted(anomalias);
    TiposSum(anomalias);
  }

  lemma TiposLength(anomalias: seq<AnomalyRecord>)
    ensures |TiposData(anomalias)| == Min(TOP_TYPES, |Dedup(Tipos(anomalias))|)
  {
    TallyEntries(Tipos(anomalias));
    assert |Relabelled(anomalias)| == |Tally(Tipos(anomalias))|;
  }

  lemma TiposTop(anomalias: seq<AnomalyRecord>)
    ensures var r, rel := TiposData(anomalias), Relabelled(anomalias);
      && multiset(r) <= multiset(rel)
      && (forall a, b | a in r && b in multiset(rel) - multiset(r) :: a.count >= b.count)
  {
    var rel := Relabelled(anomalias);
    var r := TiposData(anomalias);
    ByCountDescTotal<string>();
    TopSpec(rel, TOP_TYPES, ByCountDesc);
    forall a, b | a in r && b in multiset(rel) - multiset(r) ensures a.count >= b.count {
      assert ByCountDesc(a, b);
    }
  }

  lemma TiposSorted(anomalias: seq<AnomalyRecord>)
    ensures SortedBy(TiposData(anomalias), ByCountDesc)
  {
    var sorted := SortBy(Relabelled(anomalias), ByCountDesc);
    var r := TiposData(anomalias);
    ByCountDescTotal<string>();
    SortBySorted(Relabelled(anomalias), ByCountDesc);
    assert r == sorted[..|r|];
  }

  lemma TiposSum(anomalias: seq<AnomalyRecord>)
    ensures SumCounts(TiposData(anomalias)) <= |anomalias|
  {
    var ts := Tipos(anomalias);
    var rel := Relabelled(anomalias);
    var sorted := SortBy(rel, ByCountDesc);
    SumTake(sorted, TOP_TYPES);
    SortEntries(rel, ByCountDesc);
    RelabelSum(Tally(ts));
    TallyCorrect(ts);
  }

  /**
   * At most six entries, one per distinct raw type up to that cap, by non-increasing count;
   * each is the label of a type that occurs with that type's number of anomalies, the entries
   * count no more than all anomalies, and an entry left out counts no more than any shown.
   */
  lemma TiposDataSpec(anomalias: seq<AnomalyRecord>)
    ensures var r, ts, rel := TiposData(anomalias), Tipos(anomalias), Relabelled(anomalias);
      && |r| == Min(TOP_TYPES, |Dedup(ts)|)
      && SortedBy(r, ByCountDesc)
      && (forall i | 0 <= i < |r| ::
            exists t | t in ts :: r[i].key == TypeName(t) && r[i].count == multiset(ts)[t] >= 1)
      && (forall a, b | a in r && b in multiset(rel) - multiset(r) :: a.count >= b.count)
      && SumCounts(r) <= |anomalias|
  {
    TiposLength(anomalias);
    TiposTop(anomalias);
    TiposSorted(anomalias);
    TiposSum(anomalias);
    TiposEntries(anomalias);
  }

  lemma TiposEntries(anomalias: seq<AnomalyRecord>)
    ensures var r, ts := TiposData(anomalias), Tipos(anomalias);
      forall i | 0 <= i < |r| ::
        exists t | t in ts :: r[i].key == TypeName(t) && r[i].count == multiset(ts)[t] >= 1
  {
    forall i | 0 <= i < |TiposData(anomalias)| {
      TiposEntry(anomalias, i);
    }
  }

  lemma TiposEntry(anomalias: seq<AnomalyRecord>, i: nat)
    requires i < |TiposData(anomalias)|
    ensures var ts, e := Tipos(anomalias), TiposData(anomalias)[i];
      exists t | t in ts :: e.key == TypeName(t) && e.count == multiset(ts)[t] >= 1
  {
    var r, rel := TiposData(anomalias), Relabelled(anomalias);
    TiposTop(anomalias);
    assert r[i] in multiset(r);
    var p :| 0 <= p < |rel| && rel[p] == r[i];
    RelabelledEntries(anomalias, p);
  }

  // ---------------------------------------------------------------- severity bars

  const PRIMARY := "#0066CC"
  const DANGER := "#EF4444"
  const WARNING := "#F59E0B"
  const SUCCESS := "#10B981"

  /** `SEVERITY_COLORS[nombre] || IGAC_COLORS.primary`. */
  function SeverityColor(nombre: string): string {
    if nombre == "Alta" then DANGER
    else if nombre == "Media" then WARNING
    else if nombre == "Baja" then SUCCESS
    else PRIMARY
  }

  /** The three severity names get three different colours, and every other name the primary one. */
  lemma SeverityColorSpec(nombre: string)
    ensures SeverityColor(nombre) == DANGER <==> nombre == "Alta"
    ensures SeverityColor(nombre) == WARNING <==> nombre == "Media"
    ensures SeverityColor(nombre) == SUCCESS <==> nombre == "Baja"
    ensures SeverityColor(nombre) == PRIMARY <==> nombre !in ["Alta", "Media", "Baja"]
  {
  }

  datatype ColoredBar = ColoredBar(nombre: string, valor: nat, fill: string)

  /** `severidad.map(s => ({ ...s, fill }))`. */
  function WithColors(severidad: seq<Entry<string>>): (bars: seq<ColoredBar>)
    ensures |bars| == |severidad|
  {
    if severidad == [] then []
    else
      var s := severidad[0];
      [ColoredBar(s.key, s.count, SeverityColor(s.key))] + WithColors(severidad[1..])
  }

  /** Order, names and values are kept; only the colour is added. */
  lemma {:induction false} WithColorsSpec(severidad: seq<Entry<string>>, i: nat)
    requires i < |severidad|
    ensures var b := WithColors(severidad)[i];
      b.nombre == severidad[i].key && b.valor == severidad[i].count && b.fill == SeverityColor(b.nombre)
  {
    if i > 0 {
      WithColorsSpec(severidad[1..], i - 1);
    }
  }

  /** The server's severity histogram is drawn red, amber, green. */
  lemma HistogramColors(alta: nat, media: nat, baja: nat)
    ensures var bars := WithColors(Dashboard.SeverityHistogram(alta, media, baja));
      |bars| == 3 && bars[0].fill == DANGER && bars[1].fill == WARNING && bars[2].fill == SUCCESS
  {
    var h := Dashboard.SeverityHistogram(alta, media, baja);
    WithColorsSpec(h, 0);
    WithColorsSpec(h, 1);
    WithColorsSpec(h, 2);
  }
}
