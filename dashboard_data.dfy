/**
 * The dashboard server action (`getDashboardData` in frontend/src/app/actions/dashboard.ts):
 * read the risk table as text, split it into lines and comma-separated values, keep the
 * rows at least as wide as the header, and aggregate them into the dashboard's series,
 * sample and KPIs. A failed read, or an exception while building the sample, gives the
 * fixed fallback.
 *
 * The file content is an `Option<string>` (`None`: the read threw); `parseFloat` and
 * `toFixed` are parameters.
 */
module Dashboard {
  import opened Wrappers
  import opened Text
  import opened Csv
  import opened Grouping
  import opened Sorting
  import opened Anomaly
  import opened Scan

  /** `x.toFixed(digits)`. */
  type Formatter = (real, nat) -> string

  // Column positions of the risk table.
  const VALOR: nat := 0
  const DEPARTAMENTO: nat := 1
  const MUNICIPIO: nat := 2
  const YEAR: nat := 4
  const ES_ANOMALIA: nat := 7
  const SCORE: nat := 8
  const TIPO: nat := 9

  // ---------------------------------------------------------------- lines to records

  /** The number of header fields: the first line split on commas, untrimmed. */
  function Width(lines: seq<string>): nat
    requires |lines| >= 1
  {
    |Split(lines[0], ',')|
  }

  /** A data line becomes a record when its trimmed text is non-empty and at least as wide as the header. */
  predicate Accepted(line: string, width: nat) {
    Trim(line) != [] && |Values(line)| >= width
  }

  /** The records read from lines 1 to `n - 1`. */
  function RecordsUpTo(lines: seq<string>, width: nat, n: nat): seq<Row>
    requires n <= |lines|
  {
    FilterMap(lines, 1, n, line => Accepted(line, width), Values)
  }

  function Records(content: string): seq<Row> {
    var lines := Lines(content);
    RecordsUpTo(lines, Width(lines), |lines|)
  }

  /** The parsing loop. */
  method ParseRecords(content: string) returns (records: seq<Row>)
    ensures records == Records(content)
  {
    var lines := Split(content, '\n');
    var width := |Split(lines[0], ',')|;
    records := [];
    var i := 1;
    while i < |lines|
      invariant 1 <= i <= |lines|
      invariant records == RecordsUpTo(lines, width, i)
    {
      var line := Trim(lines[i]);
      if line != [] {
        var values := Split(line, ',');
        if |values| >= width {
          records := records + [values];
        }
      }
      i := i + 1;
    }
  }

  /** The indices of the lines that became records, in file order. */
  ghost function RecordLines(content: string): seq<nat> {
    var lines := Lines(content);
    KeptIndices(lines, 1, |lines|, line => Accepted(line, Width(lines)))
  }

  /**
   * The header line never becomes a record; every other line becomes one, in file order,
   * exactly when it is accepted; each record has at least as many fields as the header,
   * and joining its fields with commas gives back the trimmed line.
   */
  lemma RecordsSpec(content: string)
    ensures var lines, rs, idx := Lines(content), Records(content), RecordLines(content);
      && |idx| == |rs|
      && Increasing(idx)
      && (forall i | 0 <= i < |lines| :: i in idx <==> i >= 1 && Accepted(lines[i], Width(lines)))
      && (forall k | 0 <= k < |rs| ::
            && 1 <= idx[k] < |lines|
            && rs[k] == Values(lines[idx[k]])
            && |rs[k]| >= Width(lines)
            && Join(rs[k], ',') == Trim(lines[idx[k]]))
  {
    var lines := Lines(content);
    var keep := line => Accepted(line, Width(lines));
    var idx := RecordLines(content);
    FilterMapSpec(lines, 1, |lines|, keep, Values);
    forall k | 0 <= k < |idx| ensures Join(Values(lines[idx[k]]), ',') == Trim(lines[idx[k]]) {
      JoinSplit(Trim(lines[idx[k]]), ',');
    }
    forall i | 0 <= i < |lines| ensures i in idx <==> i >= 1 && Accepted(lines[i], Width(lines)) {
      if i in idx {
        var k :| 0 <= k < |idx| && idx[k] == i;
      }
    }
  }

  // ---------------------------------------------------------------- grouped counts

  /** The truthy values of column `k`, in record order: what `if (x) map.set(x, …)` counts. */
  function PresentValues(records: seq<Row>, k: nat): seq<string> {
    if records == [] then []
    else
      var last := records[|records| - 1];
      PresentValues(records[..|records| - 1], k) + (if Truthy(Field(last, k)) then [last[k]] else [])
  }

  function Normalized(vs: seq<string>, norm: string -> string): seq<string> {
    seq(|vs|, i requires 0 <= i < |vs| => norm(vs[i]))
  }

  /** `records.forEach(r => { let x = r[k]; if (x) { x = norm(x); m.set(x, (m.get(x) || 0) + 1); } })`. */
  method CountField(records: seq<Row>, k: nat, norm: string -> string) returns (m: seq<Entry<string>>)
    ensures m == Tally(Normalized(PresentValues(records, k), norm))
  {
    m := [];
    var i := 0;
    while i < |records|
      invariant 0 <= i <= |records|
      invariant m == Tally(Normalized(PresentValues(records[..i], k), norm))
    {
      var r := records[i];
      ghost var before := PresentValues(records[..i], k);
      assert records[..i + 1][..i] == records[..i];
      if k < |r| && r[k] != [] {
        assert PresentValues(records[..i + 1], k) == before + [r[k]];
        assert Normalized(before + [r[k]], norm) == Normalized(before, norm) + [norm(r[k])];
        TallyAppend(Normalized(before, norm), norm(r[k]));
        m := Bump(m, norm(r[k]));
      } else {
        assert PresentValues(records[..i + 1], k) == before;
      }
      i := i + 1;
    }
    assert records[..|records|] == records;
  }

  function Identity(s: string): string {
    s
  }

  lemma NormalizedIdentity(vs: seq<string>)
    ensures Normalized(vs, Identity) == vs
  {
    forall i | 0 <= i < |vs| ensures Normalized(vs, Identity)[i] == vs[i] {
      assert Normalized(vs, Identity)[i] == Identity(vs[i]);
    }
  }

  // ---------------------------------------------------------------- 1. yearly trend

  /** `Array.from(yearlyCounts.entries()).sort((a, b) => a.mes.localeCompare(b.mes))`. */
  function Trend(records: seq<Row>): seq<Entry<string>> {
    SortBy(Tally(PresentValues(records, YEAR)), ByKeyAsc)
  }

  /**
   * One entry per distinct non-empty year, in ascending year order, each counting the
   * records of that year; the counts add up to the records with a non-empty year.
   */
  lemma TrendSpec(records: seq<Row>)
    ensures var t, years := Trend(records), PresentValues(records, YEAR);
      && SortedBy(t, ByKeyAsc)
      && Distinct(Keys(t))
      && |t| == |Dedup(years)|
      && (forall y :: y in Keys(t) <==> y in years)
      && (forall i | 0 <= i < |t| :: t[i].count == multiset(years)[t[i].key] >= 1)
      && SumCounts(t) == |years|
  {
    ByKeyAscTotal();
    SortBySorted(Tally(PresentValues(records, YEAR)), ByKeyAsc);
    SortedTally(PresentValues(records, YEAR), ByKeyAsc);
  }

  // ---------------------------------------------------------------- 2. severity histogram

  /** The records whose score parses and falls in severity `s`. */
  function CountSeverity(records: seq<Row>, parse: Parser, s: Severity): nat {
    if records == [] then 0
    else
      var score := ParseField(parse, Field(records[|records| - 1], SCORE));
      CountSeverity(records[..|records| - 1], parse, s) + (if score.Some? && Classify(score.value) == s then 1 else 0)
  }

  /** The records whose score parses. */
  function CountScored(records: seq<Row>, parse: Parser): nat {
    if records == [] then 0
    else
      CountScored(records[..|records| - 1], parse)
      + (if ParseField(parse, Field(records[|records| - 1], SCORE)).Some? then 1 else 0)
  }

  /** The three buckets partition the records with a parseable score. */
  lemma {:induction false} SeverityTotal(records: seq<Row>, parse: Parser)
    ensures CountSeverity(records, parse, Alta) + CountSeverity(records, parse, Media)
          + CountSeverity(records, parse, Baja) == CountScored(records, parse)
    ensures CountScored(records, parse) <= |records|
  {
    if records != [] {
      SeverityTotal(records[..|records| - 1], parse);
    }
  }

  /** The `alta`/`media`/`baja` counting loop. */
  method CountSeverities(records: seq<Row>, parse: Parser) returns (alta: nat, media: nat, baja: nat)
    ensures alta == CountSeverity(records, parse, Alta)
    ensures media == CountSeverity(records, parse, Media)
    ensures baja == CountSeverity(records, parse, Baja)
  {
    alta, media, baja := 0, 0, 0;
    var i := 0;
    while i < |records|
      invariant 0 <= i <= |records|
      invariant alta == CountSeverity(records[..i], parse, Alta)
      invariant media == CountSeverity(records[..i], parse, Media)
      invariant baja == CountSeverity(records[..i], parse, Baja)
    {
      assert records[..i + 1][..i] == records[..i];
      var score := ParseField(parse, Field(records[i], SCORE));
      if score.Some? {
        if score.value < -0.05 {
          alta := alta + 1;
        } else if score.value < -0.01 {
          media := media + 1;
        } else {
          baja := baja + 1;
        }
      }
      i := i + 1;
    }
    assert records[..|records|] == records;
  }

  function SeverityHistogram(alta: nat, media: nat, baja: nat): seq<Entry<string>> {
    [Entry("Alta", alta), Entry("Media", media), Entry("Baja", baja)]
  }

  /**
   * The `severidad` series: always the three classes in the order Alta, Media, Baja, and
   * together they count every record whose score parses.
   */
  function Severities(records: seq<Row>, parse: Parser): (h: seq<Entry<string>>)
    ensures Keys(h) == ["Alta", "Media", "Baja"]
    ensures SumCounts(h) == CountScored(records, parse) <= |records|
  {
    SeverityTotal(records, parse);
    var h := SeverityHistogram(CountSeverity(records, parse, Alta), CountSeverity(records, parse, Media),
                               CountSeverity(records, parse, Baja));
    assert Keys(h[2..]) == ["Baja"] && SumCounts(h[2..]) == h[2].count;
    assert Keys(h[1..]) == ["Media"] + Keys(h[2..]) && SumCounts(h[1..]) == h[1].count + SumCounts(h[2..]);
    h
  }

  // ---------------------------------------------------------------- 3. top city

  const UNKNOWN_CITY := "Desconocida"

  function TopCity(records: seq<Row>): string {
    FirstMaxKey(Tally(PresentValues(records, MUNICIPIO)), UNKNOWN_CITY)
  }

  /**
   * "Desconocida" when no record names a municipality; otherwise a named municipality that
   * no other outnumbers, and the first seen among those with that count.
   */
  lemma TopCitySpec(records: seq<Row>)
    ensures var cities := PresentValues(records, MUNICIPIO);
      && (cities == [] ==> TopCity(records) == UNKNOWN_CITY)
      && (cities != [] ==> exists j | 0 <= j < |Dedup(cities)| ::
            && Dedup(cities)[j] == TopCity(records)
            && (forall c | c in cities :: multiset(cities)[c] <= multiset(cities)[Dedup(cities)[j]])
            && (forall i | 0 <= i < j :: multiset(cities)[Dedup(cities)[i]] < multiset(cities)[Dedup(cities)[j]]))
  {
    FirstMaxOfTally(PresentValues(records, MUNICIPIO), UNKNOWN_CITY);
  }

  // ---------------------------------------------------------------- 4. recent sample

  /** `s.slice(-n)`. */
  function Last<T>(s: seq<T>, n: nat): (r: seq<T>)
    ensures |r| == Min(n, |s|)
    ensures r == s[|s| - |r|..]
  {
    s[|s| - Min(n, |s|)..]
  }

  function Reverse<T>(s: seq<T>): (r: seq<T>)
    ensures |r| == |s|
    ensures forall i | 0 <= i < |s| :: r[i] == s[|s| - 1 - i]
  {
    if s == [] then [] else Reverse(s[1..]) + [s[0]]
  }

  /** The `AnomalyRecord` built for record `r` at position `index` of the sample. */
  function ToAnomaly(r: Row, index: nat, parse: Parser): AnomalyRecord
    requires |r| > TIPO
  {
    AnomalyRecord(
      id := "A-" + r[YEAR] + "-" + NatToString(index),
      ciudad := r[MUNICIPIO],
      municipio := r[MUNICIPIO],
      departamento := r[DEPARTAMENTO],
      severidad := ClassifyParsed(parse(r[SCORE])),
      tipo := ReplaceAll(ToLower(r[TIPO]), '_', ' '),
      fecha := r[YEAR] + "-01-01",
      valorTransaccion := parse(r[VALOR]).GetOr(0.0),
      areaConstruida := 0.0,
      estadoRevision := Pendiente)
  }

  /**
   * `.map((r, index) => …)` with indices from `from`; `None` when some row has no type
   * field, where `r.TIPO_ANOMALIA.toLowerCase()` throws.
   */
  function MapAnomalies(rows: seq<Row>, from: nat, parse: Parser): Option<seq<AnomalyRecord>> {
    if rows == [] then Some([])
    else if |rows[0]| <= TIPO then None
    else
      match MapAnomalies(rows[1..], from + 1, parse)
      case None => None
      case Some(rest) => Some([ToAnomaly(rows[0], from, parse)] + rest)
  }

  /** `records.slice(-50).reverse().map(...)`. */
  function RecentSample(records: seq<Row>, parse: Parser): Option<seq<AnomalyRecord>> {
    MapAnomalies(Reverse(Last(records, 50)), 0, parse)
  }

  lemma {:induction false} MapAnomaliesSpec(rows: seq<Row>, from: nat, parse: Parser)
    ensures MapAnomalies(rows, from, parse).None? <==> exists k | 0 <= k < |rows| :: |rows[k]| <= TIPO
    ensures MapAnomalies(rows, from, parse).Some? ==>
      var out := MapAnomalies(rows, from, parse).value;
      |out| == |rows| && forall k | 0 <= k < |rows| :: |rows[k]| > TIPO && out[k] == ToAnomaly(rows[k], from + k, parse)
  {
    MapAnomaliesFails(rows, from, parse);
    if MapAnomalies(rows, from, parse).Some? {
      MapAnomaliesLength(rows, from, parse);
      forall k | 0 <= k < |rows|
        ensures |rows[k]| > TIPO && MapAnomalies(rows, from, parse).value[k] == ToAnomaly(rows[k], from + k, parse)
      {
        MapAnomaliesAt(rows, from, parse, k);
      }
    }
  }

  lemma {:induction false} MapAnomaliesFails(rows: seq<Row>, from: nat, parse: Parser)
    ensures MapAnomalies(rows, from, parse).None? <==> exists k | 0 <= k < |rows| :: |rows[k]| <= TIPO
  {
    if rows != [] {
      MapAnomaliesFails(rows[1..], from + 1, parse);
      if exists k | 0 <= k < |rows| :: |rows[k]| <= TIPO {
        var k :| 0 <= k < |rows| && |rows[k]| <= TIPO;
        if k > 0 {
          assert rows[1..][k - 1] == rows[k];
        }
      }
      if exists k | 0 <= k < |rows[1..]| :: |rows[1..][k]| <= TIPO {
        var k :| 0 <= k < |rows[1..]| && |rows[1..][k]| <= TIPO;
        assert rows[k + 1] == rows[1..][k];
      }
    }
  }

  lemma {:induction false} MapAnomaliesLength(rows: seq<Row>, from: nat, parse: Parser)
    requires MapAnomalies(rows, from, parse).Some?
    ensures |MapAnomalies(rows, from, parse).value| == |rows|
  {
    if rows != [] {
      MapAnomaliesLength(rows[1..], from + 1, parse);
    }
  }

  lemma {:induction false} MapAnomaliesAt(rows: seq<Row>, from: nat, parse: Parser, k: nat)
    requires MapAnomalies(rows, from, parse).Some? && k < |rows|
    ensures |MapAnomalies(rows, from, parse).value| == |rows|
    ensures |rows[k]| > TIPO && MapAnomalies(rows, from, parse).value[k] == ToAnomaly(rows[k], from + k, parse)
  {
    MapAnomaliesLength(rows, from, parse);
    if k > 0 {
      MapAnomaliesAt(rows[1..], from + 1, parse, k - 1);
      assert rows[1..][k - 1] == rows[k];
    }
  }

  /**
   * The sample holds the last `min(50, n)` records newest first: entry `k` describes record
   * `n - 1 - k` at index `k`. It fails exactly when one of those records has no type field.
   */
  lemma RecentSpec(records: seq<Row>, parse: Parser)
    ensures var n, m := |records|, Min(50, |records|);
      && (RecentSample(records, parse).None? <==> exists j | n - m <= j < n :: |records[j]| <= TIPO)
      && (RecentSample(records, parse).Some? ==>
            var out := RecentSample(records, parse).value;
            && |out| == m
            && forall k | 0 <= k < m ::
                 |records[n - 1 - k]| > TIPO && Describes(out[k], records[n - 1 - k], k, parse))
  {
    var n, m := |records|, Min(50, |records|);
    RecentFails(records, parse);
    if RecentSample(records, parse).Some? {
      RecentLength(records, parse);
      forall k | 0 <= k < m
        ensures |records[n - 1 - k]| > TIPO
        ensures Describes(RecentSample(records, parse).value[k], records[n - 1 - k], k, parse)
      {
        RecentAt(records, parse, k);
        AnomalyFields(records[n - 1 - k], k, parse);
      }
    }
  }

  /**
   * Anomaly `a` shows record `r` at sample index `k`: id "A-<year>-<k>", date
   * "<year>-01-01", the municipality as city, the type lower-cased with underscores turned
   * to spaces, the parsed value or 0, area 0, review pending and the severity of its score.
   */
  predicate Describes(a: AnomalyRecord, r: Row, k: nat, parse: Parser)
    requires |r| > TIPO
  {
    && a.id == "A-" + r[YEAR] + "-" + NatToString(k)
    && a.ciudad == r[MUNICIPIO] && a.municipio == r[MUNICIPIO]
    && a.departamento == r[DEPARTAMENTO]
    && a.severidad == ClassifyParsed(parse(r[SCORE]))
    && a.tipo == ReplaceAll(ToLower(r[TIPO]), '_', ' ')
    && a.fecha == r[YEAR] + "-01-01"
    && a.valorTransaccion == parse(r[VALOR]).GetOr(0.0)
    && a.areaConstruida == 0.0
    && a.estadoRevision == Pendiente
  }

  /** The anomaly built for a record describes it. */
  lemma AnomalyFields(r: Row, k: nat, parse: Parser)
    requires |r| > TIPO
    ensures Describes(ToAnomaly(r, k, parse), r, k, parse)
  {
  }

  /** The rows the sample is built from: the last `min(50, n)` records, newest first. */
  lemma RecentRows<T>(records: seq<T>)
    ensures var rows := Reverse(Last(records, 50));
      && |rows| == Min(50, |records|)
      && forall k | 0 <= k < |rows| :: rows[k] == records[|records| - 1 - k]
  {
  }

  /** The sample fails exactly when one of the last `min(50, n)` records has no type field. */
  lemma RecentFails(records: seq<Row>, parse: Parser)
    ensures var n, m := |records|, Min(50, |records|);
      RecentSample(records, parse).None? <==> exists j | n - m <= j < n :: |records[j]| <= TIPO
  {
    var rows := Reverse(Last(records, 50));
    RecentRows(records);
    MapAnomaliesFails(rows, 0, parse);
    NarrowRowIn(records, rows);
  }

  /** Some row of the newest-first rows is too narrow exactly when one of the records they come from is. */
  lemma NarrowRowIn(records: seq<Row>, rows: seq<Row>)
    requires |rows| <= |records|
    requires forall k | 0 <= k < |rows| :: rows[k] == records[|records| - 1 - k]
    ensures (exists k | 0 <= k < |rows| :: |rows[k]| <= TIPO)
        <==> exists j | |records| - |rows| <= j < |records| :: |records[j]| <= TIPO
  {
    var n := |records|;
    if exists j | n - |rows| <= j < n :: |records[j]| <= TIPO {
      var j :| n - |rows| <= j < n && |records[j]| <= TIPO;
      assert |rows[n - 1 - j]| <= TIPO;
    }
    if exists k | 0 <= k < |rows| :: |rows[k]| <= TIPO {
      var k :| 0 <= k < |rows| && |rows[k]| <= TIPO;
      assert |records[n - 1 - k]| <= TIPO;
    }
  }

  /** A sample that is built holds one entry per row. */
  lemma RecentLength(records: seq<Row>, parse: Parser)
    requires RecentSample(records, parse).Some?
    ensures |RecentSample(records, parse).value| == Min(50, |records|)
  {
    RecentRows(records);
    MapAnomaliesLength(Reverse(Last(records, 50)), 0, parse);
  }

  /** Entry `k` of a built sample is the anomaly of record `n - 1 - k` at index `k`. */
  lemma RecentAt(records: seq<Row>, parse: Parser, k: nat)
    requires RecentSample(records, parse).Some?
    requires k < Min(50, |records|)
    ensures |RecentSample(records, parse).value| == Min(50, |records|)
    ensures |records[|records| - 1 - k]| > TIPO
    ensures RecentSample(records, parse).value[k] == ToAnomaly(records[|records| - 1 - k], k, parse)
  {
    var rows := Reverse(Last(records, 50));
    RecentRows(records);
    assert rows[k] == records[|records| - 1 - k];
    MapAnomaliesAt(rows, 0, parse, k);
  }

  /** In a template `p + "-" + digits`, the digits after the last dash are determined. */
  lemma {:induction false} SuffixAfterLastDash(p: string, s: string, q: string, t: string)
    requires '-' !in s && '-' !in t
    requires p + "-" + s == q + "-" + t
    ensures s == t
  {
    var a, b := p + "-" + s, q + "-" + t;
    if |s| < |t| {
      DashPositions(q, t, |t| - |s| - 1);
      assert false;
    } else if |t| < |s| {
      DashPositions(p, s, |s| - |t| - 1);
      assert false;
    } else {
      assert s == a[|a| - |s|..] && t == b[|b| - |t|..];
    }
  }

  /** In `p + "-" + s` with no dash in `s`, the dash sits at `|p|` and `s` follows it. */
  lemma DashPositions(p: string, s: string, i: int)
    ensures (p + "-" + s)[|p|] == '-'
    ensures 0 <= i < |s| && '-' !in s ==> (p + "-" + s)[|p| + 1 + i] == s[i] != '-'
  {
    if 0 <= i < |s| {
      assert s[i] in s;
    }
  }

  lemma DigitsHaveNoDash(n: nat)
    ensures '-' !in NatToString(n)
  {
  }

  /** The sample's ids are pairwise different, whatever the years. */
  lemma RecentIdsUnique(records: seq<Row>, parse: Parser)
    requires RecentSample(records, parse).Some?
    ensures var out := RecentSample(records, parse).value;
      forall i, j | 0 <= i < j < |out| :: out[i].id != out[j].id
  {
    RecentLength(records, parse);
    forall i, j | 0 <= i < j < |RecentSample(records, parse).value|
      ensures RecentSample(records, parse).value[i].id != RecentSample(records, parse).value[j].id
    {
      RecentIdsDiffer(records, parse, i, j);
    }
  }

  /** Entries `i < j` of a built sample have different ids. */
  lemma RecentIdsDiffer(records: seq<Row>, parse: Parser, i: nat, j: nat)
    requires RecentSample(records, parse).Some?
    requires i < j < Min(50, |records|)
    ensures |RecentSample(records, parse).value| == Min(50, |records|)
    ensures RecentSample(records, parse).value[i].id != RecentSample(records, parse).value[j].id
  {
    var n := |records|;
    RecentAt(records, parse, i);
    RecentAt(records, parse, j);
    var ri, rj := records[n - 1 - i], records[n - 1 - j];
    AnomalyFields(ri, i, parse);
    AnomalyFields(rj, j, parse);
    IdsDiffer(ri[YEAR], rj[YEAR], i, j);
  }

  /** Ids "A-<year>-<k>" with different indices differ, whatever the years. */
  lemma IdsDiffer(yi: string, yj: string, i: nat, j: nat)
    requires i != j
    ensures "A-" + yi + "-" + NatToString(i) != "A-" + yj + "-" + NatToString(j)
  {
    if "A-" + yi + "-" + NatToString(i) == "A-" + yj + "-" + NatToString(j) {
      DigitsHaveNoDash(i);
      DigitsHaveNoDash(j);
      assert ("A-" + yi) + "-" + NatToString(i) == "A-" + yi + "-" + NatToString(i);
      assert ("A-" + yj) + "-" + NatToString(j) == "A-" + yj + "-" + NatToString(j);
      SuffixAfterLastDash("A-" + yi, NatToString(i), "A-" + yj, NatToString(j));
      NatToStringInjective(i, j);
    }
  }

  // ---------------------------------------------------------------- 5. KPIs

  /** `records.filter(r => r.ES_ANOMALIA === "1").length`. */
  function Flagged(records: seq<Row>): (n: nat)
    ensures n <= |records|
  {
    if records == [] then 0
    else Flagged(records[..|records| - 1]) + (if Field(records[|records| - 1], ES_ANOMALIA) == Some("1") then 1 else 0)
  }

  datatype Kpis = Kpis(totalPropiedades: string, totalAnomalias: string, tasaAnomalias: string, tiempoMedio: string)

  const AVERAGE_TIME := "3.2 días"

  function KpisFor(records: seq<Row>, fixed: Formatter): Kpis {
    var total := |records|;
    var flagged := Flagged(records);
    Kpis(
      totalPropiedades := fixed(total as real / 1000.0, 1) + "K",
      totalAnomalias := NatToString(flagged),
      tasaAnomalias := if total > 0 then fixed(Percentage(flagged, total), 2) + "%" else "0%",
      tiempoMedio := AVERAGE_TIME)
  }

  /**
   * The flagged count is rendered in decimal and never exceeds the record count; the rate is
   * "0%" with no records and otherwise the number p with p * records == flagged * 100, to two
   * decimals; the property total is the number t with t * 1000 == records, to one decimal.
   */
  lemma KpisSpec(records: seq<Row>, fixed: Formatter)
    ensures var k := KpisFor(records, fixed);
      && DigitsValue(k.totalAnomalias) == Flagged(records) <= |records|
      && (records == [] ==> k.tasaAnomalias == "0%")
      && (forall p: real | records != [] && IsShare(p, Flagged(records), |records|)
            :: k.tasaAnomalias == fixed(p, 2) + "%")
      && (forall t: real | t * 1000.0 == |records| as real :: k.totalPropiedades == fixed(t, 1) + "K")
  {
    DecimalRoundTrip(Flagged(records));
    forall p: real | records != [] && IsShare(p, Flagged(records), |records|)
      ensures KpisFor(records, fixed).tasaAnomalias == fixed(p, 2) + "%"
    {
      KpisRate(records, fixed, p);
    }
    forall t: real | t * 1000.0 == |records| as real
      ensures KpisFor(records, fixed).totalPropiedades == fixed(t, 1) + "K"
    {
      KpisTotal(records, fixed, t);
    }
  }

  /** Any p that is the flagged share of the records, in percent, is what the rate card shows. */
  lemma KpisRate(records: seq<Row>, fixed: Formatter, p: real)
    requires records != [] && IsShare(p, Flagged(records), |records|)
    ensures KpisFor(records, fixed).tasaAnomalias == fixed(p, 2) + "%"
  {
    RateIsPercentage(Flagged(records), |records|, p);
  }

  /** `p` percent of `whole` is `part`. */
  predicate IsShare(p: real, part: nat, whole: nat) {
    p * whole as real == part as real * 100.0
  }

  /** The percentage is the only number p with p * whole == part * 100. */
  lemma RateIsPercentage(part: nat, whole: nat, p: real)
    requires 0 < whole && part <= whole && IsShare(p, part, whole)
    ensures p == Percentage(part, whole)
  {
    SameShare(p, Percentage(part, whole), whole as real);
  }

  /** Any t with t * 1000 == records is what the property card shows, in thousands. */
  lemma KpisTotal(records: seq<Row>, fixed: Formatter, t: real)
    requires t * 1000.0 == |records| as real
    ensures KpisFor(records, fixed).totalPropiedades == fixed(t, 1) + "K"
  {
    SameShare(t, |records| as real / 1000.0, 1000.0);
  }

  /** Two numbers with the same product with a positive whole are equal. */
  lemma SameShare(p: real, q: real, n: real)
    requires n > 0.0 && p * n == q * n
    ensures p == q
  {
    assert (p - q) * n == 0.0;
  }

  /** `(part / whole) * 100`: the share of `part` in `whole`, as a percentage. */
  function Percentage(part: nat, whole: nat): (p: real)
    requires 0 < whole && part <= whole
    ensures 0.0 <= p <= 100.0
    ensures IsShare(p, part, whole)
  {
    var q := part as real / whole as real;
    assert q * whole as real == part as real;
    assert q <= 1.0;
    q * 100.0
  }

  // ---------------------------------------------------------------- 6. top departments

  function TopDepartments(records: seq<Row>): seq<Entry<string>> {
    Take(SortBy(Tally(PresentValues(records, DEPARTAMENTO)), ByCountDesc), 5)
  }

  /**
   * At most five departments, by non-increasing count, each once with the number of records
   * naming it; a department left out is outnumbered-or-tied by every one kept.
   */
  lemma TopDepartmentsSpec(records: seq<Row>)
    ensures var top, depts := TopDepartments(records), PresentValues(records, DEPARTAMENTO);
      && |top| == Min(5, |Dedup(depts)|)
      && SortedBy(top, ByCountDesc)
      && Distinct(Keys(top))
      && (forall i | 0 <= i < |top| :: top[i].key in depts && top[i].count == multiset(depts)[top[i].key] >= 1)
      && (forall i, d | 0 <= i < |top| && d in depts && d !in Keys(top) :: multiset(depts)[d] <= top[i].count)
  {
    TopCounts(PresentValues(records, DEPARTAMENTO), 5);
  }

  // ---------------------------------------------------------------- 7. type distribution

  /** `type.replace(/_/g, " ")`, then the first character upper-cased and the rest lower-cased. */
  function TypeLabel(t: string): (name: string)
    ensures |name| == |t|
  {
    var u := ReplaceAll(t, '_', ' ');
    if u == [] then [] else [UpperChar(u[0])] + ToLower(u[1..])
  }

  function TypeLabels(records: seq<Row>): seq<string> {
    Normalized(PresentValues(records, TIPO), TypeLabel)
  }

  function TypeDistribution(records: seq<Row>): seq<Entry<string>> {
    SortBy(Tally(TypeLabels(records)), ByCountDesc)
  }

  /**
   * One entry per distinct label, by non-increasing count, no label empty, each counting the
   * records whose type normalises to it; the counts add up to the records with a non-empty type.
   */
  lemma TypeDistributionSpec(records: seq<Row>)
    ensures var dist, labels := TypeDistribution(records), TypeLabels(records);
      && SortedBy(dist, ByCountDesc)
      && Distinct(Keys(dist))
      && (forall i | 0 <= i < |dist| :: dist[i].key != [] && dist[i].count == multiset(labels)[dist[i].key] >= 1)
      && SumCounts(dist) == |PresentValues(records, TIPO)|
  {
    var labels := TypeLabels(records);
    var types := PresentValues(records, TIPO);
    SortedCounts(labels);
    PresentValuesNonEmpty(records, TIPO);
    var dist := TypeDistribution(records);
    forall i | 0 <= i < |dist| ensures dist[i].key != [] {
      var j :| 0 <= j < |labels| && labels[j] == dist[i].key;
      assert labels[j] == TypeLabel(types[j]);
      assert types[j] in types;
    }
  }

  lemma {:induction false} PresentValuesNonEmpty(records: seq<Row>, k: nat)
    ensures forall v | v in PresentValues(records, k) :: v != []
  {
    if records != [] {
      PresentValuesNonEmpty(records[..|records| - 1], k);
    }
  }

  // ---------------------------------------------------------------- the action

  datatype DashboardData = DashboardData(
    tendenciaMensual: seq<Entry<string>>,
    severidad: seq<Entry<string>>,
    anomalias: seq<AnomalyRecord>,
    ciudadTop: string,
    distribucionGeografica: seq<Entry<string>>,
    distribucionTipo: seq<Entry<string>>,
    kpis: Kpis)

  /** The structure returned from the `catch` block. */
  const FALLBACK := DashboardData([], [], [], "N/A", [], [], Kpis("0", "0", "0%", "0"))

  /** The structure built once the records are parsed and the sample mapped. */
  function Aggregate(records: seq<Row>, recent: seq<AnomalyRecord>, parse: Parser, fixed: Formatter): (d: DashboardData)
    ensures d != FALLBACK
    ensures d.anomalias == recent
  {
    DashboardData(
      tendenciaMensual := Trend(records),
      severidad := Severities(records, parse),
      anomalias := recent,
      ciudadTop := TopCity(records),
      distribucionGeografica := TopDepartments(records),
      distribucionTipo := TypeDistribution(records),
      kpis := KpisFor(records, fixed))
  }

  /** What `getDashboardData` resolves to, given the read's outcome. */
  function DashboardFor(file: Option<string>, parse: Parser, fixed: Formatter): DashboardData {
    if file.None? then FALLBACK
    else
      var records := Records(file.value);
      match RecentSample(records, parse)
      case None => FALLBACK
      case Some(recent) => Aggregate(records, recent, parse, fixed)
  }

  /**
   * A failed read, or a sampled record too short to carry a type, gives the fallback; every
   * other file gives the aggregate of its records.
   */
  lemma DashboardSpec(file: Option<string>, parse: Parser, fixed: Formatter)
    ensures file.None? ==> DashboardFor(file, parse, fixed) == FALLBACK
    ensures file.Some? ==>
      var d, records := DashboardFor(file, parse, fixed), Records(file.value);
      && (d == FALLBACK <==> RecentSample(records, parse).None?)
      && (RecentSample(records, parse).Some? ==> d == Aggregate(records, RecentSample(records, parse).value, parse, fixed))
  {
  }

  /** The action itself: the parsing loop, the counting loops, and the pure steps between them. */
  method GetDashboardData(file: Option<string>, parse: Parser, fixed: Formatter) returns (d: DashboardData)
    ensures d == DashboardFor(file, parse, fixed)
  {
    if file.None? {
      return FALLBACK;
    }
    var records := ParseRecords(file.value);
    var yearly := CountField(records, YEAR, Identity);
    NormalizedIdentity(PresentValues(records, YEAR));
    var alta, media, baja := CountSeverities(records, parse);
    var cities := CountField(records, MUNICIPIO, Identity);
    NormalizedIdentity(PresentValues(records, MUNICIPIO));
    var ciudadTop := FirstMax(cities, UNKNOWN_CITY);
    var recent := RecentSample(records, parse);
    if recent.None? {
      return FALLBACK;
    }
    var depts := CountField(records, DEPARTAMENTO, Identity);
    NormalizedIdentity(PresentValues(records, DEPARTAMENTO));
    var types := CountField(records, TIPO, TypeLabel);
    d := DashboardData(
      tendenciaMensual := SortBy(yearly, ByKeyAsc),
      severidad := SeverityHistogram(alta, media, baja),  // Severities(records, parse)
      anomalias := recent.value,
      ciudadTop := ciudadTop,
      distribucionGeografica := Take(SortBy(depts, ByCountDesc), 5),
      distribucionTipo := SortBy(types, ByCountDesc),
      kpis := KpisFor(records, fixed));
  }
}
