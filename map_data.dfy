/**
 * The map server action (`getMapData` in frontend/src/app/actions/map.ts): scan the risk table
 * in file order, keep the lines with at least ten values whose department matches an optional
 * filter, classify each one's score, place it near its municipality, its department or the
 * centre of Colombia, and stop after 3000 points.
 *
 * The file content is an `Option<string>` (`None`: the read threw); `parseFloat` is a
 * parameter, and `Math.random()` is a parameter `rand` whose `n`-th value is the `n`-th draw:
 * the `k`-th point uses draws `2 * k` and `2 * k + 1`.
 */
module MapData {
  import opened Wrappers
  import opened Text
  import opened Csv
  import opened Scan
  import opened Anomaly

  datatype Coord = Coord(lat: real, lng: real)

  /** The table of known places, by upper-case name: municipalities, then departments. */
  const COORDINATES: seq<(string, Coord)> :=
    [
      ("BOGOTA", Coord(4.7110, -74.0721)),
      ("BOGOTA D.C.", Coord(4.7110, -74.0721)),
      ("BOGOTÁ D.C.", Coord(4.7110, -74.0721)),
      ("MEDELLIN", Coord(6.2442, -75.5812)),
      ("CALI", Coord(3.4516, -76.5320)),
      ("BARRANQUILLA", Coord(10.9685, -74.7813)),
      ("CARTAGENA", Coord(10.3910, -75.4794)),
      ("CUCUTA", Coord(7.8939, -72.5078)),
      ("BUCARAMANGA", Coord(7.1254, -73.1198)),
      ("PEREIRA", Coord(4.8133, -75.6961)),
      ("MANIZALES", Coord(5.0689, -75.5174)),
      ("IBAGUE", Coord(4.4389, -75.2322)),
      ("VILLAVICENCIO", Coord(4.1420, -73.6266)),
      ("SANTA MARTA", Coord(11.2408, -74.2099)),
      ("VALLEDUPAR", Coord(10.4631, -73.2532)),
      ("MONTERIA", Coord(8.7479, -75.8814)),
      ("SINCELEJO", Coord(9.3047, -75.3978)),
      ("POPAYAN", Coord(2.4419, -76.6063)),
      ("TUNJA", Coord(5.5353, -73.3678)),
      ("ARMENIA", Coord(4.5339, -75.6811)),
      ("PASTO", Coord(1.2136, -77.2811)),
      ("NEIVA", Coord(2.9273, -75.2819)),
      ("RIOHACHA", Coord(11.5444, -72.9072)),
      ("FLORENCIA", Coord(1.6175, -75.6038)),
      ("YOPAL", Coord(5.3378, -72.3959)),
      ("QUIBDO", Coord(5.6947, -76.6611)),
      ("MOCOA", Coord(1.1528, -76.6521)),
      ("ARAUCA", Coord(7.0845, -70.7554)),
      ("LETICIA", Coord(-4.2153, -69.9406)),
      ("SAN ANDRES", Coord(12.5847, -81.7006)),
      ("MITU", Coord(1.1983, -70.1733)),
      ("PUERTO CARREÑO", Coord(6.1890, -67.4859)),
      ("INIRIDA", Coord(3.8653, -67.9239)),
      ("SAN JOSE DEL GUAVIARE", Coord(2.5729, -72.6459)),
      ("AMAZONAS", Coord(-1.4429, -71.5724)),
      ("ANTIOQUIA", Coord(6.9087, -75.6374)),
      ("ARAUCA DEPARTAMENTO", Coord(6.5672, -70.9500)),
      ("ATLÁNTICO", Coord(10.6966, -74.8741)),
      ("ATLANTICO", Coord(10.6966, -74.8741)),
      ("BOLÍVAR", Coord(8.6705, -74.0300)),
      ("BOLIVAR", Coord(8.6705, -74.0300)),
      ("BOYACÁ", Coord(5.7159, -73.1486)),
      ("BOYACA", Coord(5.7159, -73.1486)),
      ("CALDAS", Coord(5.3323, -75.3650)),
      ("CAQUETÁ", Coord(0.8675, -73.8725)),
      ("CAQUETA", Coord(0.8675, -73.8725)),
      ("CASANARE", Coord(5.3872, -71.6266)),
      ("CAUCA", Coord(2.3972, -76.7332)),
      ("CESAR", Coord(9.3373, -73.6536)),
      ("CHOCÓ", Coord(5.8736, -76.9257)),
      ("CHOCO", Coord(5.8736, -76.9257)),
      ("CÓRDOBA", Coord(8.3653, -75.7873)),
      ("CORDOBA", Coord(8.3653, -75.7873)),
      ("CUNDINAMARCA", Coord(4.9524, -74.0721)),
      ("GUAINÍA", Coord(2.5854, -68.5247)),
      ("GUAINIA", Coord(2.5854, -68.5247)),
      ("GUAVIARE", Coord(2.0667, -72.0333)),
      ("HUILA", Coord(2.5359, -75.5277)),
      ("LA GUAJIRA", Coord(11.3548, -72.5205)),
      ("MAGDALENA", Coord(10.2371, -74.3611)),
      ("META", Coord(3.2720, -73.0877)),
      ("NARIÑO", Coord(1.5553, -77.5231)),
      ("NORTE DE SANTANDER", Coord(7.9463, -72.8988)),
      ("PUTUMAYO", Coord(0.6378, -76.1583)),
      ("QUINDÍO", Coord(4.4614, -75.7074)),
      ("QUINDIO", Coord(4.4614, -75.7074)),
      ("RISARALDA", Coord(4.9727, -75.8399)),
      ("SAN ANDRÉS Y PROVIDENCIA", Coord(12.5847, -81.7006)),
      ("SANTANDER", Coord(6.6437, -73.3920)),
      ("SUCRE", Coord(9.1378, -74.9300)),
      ("TOLIMA", Coord(4.0173, -75.1874)),
      ("VALLE DEL CAUCA", Coord(3.8009, -76.6248)),
      ("VAUPÉS", Coord(0.5556, -70.7554)),
      ("VAUPES", Coord(0.5556, -70.7554)),
      ("VICHADA", Coord(4.7333, -69.6667))
    ]

  /** `COORDINATES_MAP[key]`: the entry stored under `key`, if any. */
  function Lookup(table: seq<(string, Coord)>, key: string): (c: Option<Coord>)
    ensures c.Some? <==> exists i | 0 <= i < |table| :: table[i].0 == key
    ensures c.Some? ==> exists i | 0 <= i < |table| :: table[i] == (key, c.value)
  {
    if table == [] then None
    else if table[0].0 == key then Some(table[0].1)
    else
      var c := Lookup(table[1..], key);
      assert forall i | 1 <= i < |table| :: table[i] == table[1..][i - 1];
      c
  }

  /** The centre of Colombia, used when neither name is known. */
  const CENTER := Coord(4.5709, -74.2973)

  // Width of the jitter square around a municipality, a department and the centre.
  const MUNICIPIO_SPREAD: real := 0.01
  const DEPARTAMENTO_SPREAD: real := 0.5
  const CENTER_SPREAD: real := 4.0

  /** `Math.random()` draws lie in `[0, 1)`. */
  predicate IsDraw(r: real) {
    0.0 <= r < 1.0
  }

  /** `x` lies in the half-open interval of half-width `h` around `c`. */
  predicate Within(x: real, c: real, h: real) {
    c - h <= x < c + h
  }

  predicate Near(p: Coord, c: Coord, h: real) {
    Within(p.lat, c.lat, h) && Within(p.lng, c.lng, h)
  }

  /** `[lat + (r1 - 0.5) * spread, lng + (r2 - 0.5) * spread]`. */
  function Jitter(c: Coord, spread: real, r1: real, r2: real): (p: Coord)
    ensures spread > 0.0 && IsDraw(r1) && IsDraw(r2) ==> Near(p, c, spread / 2.0)
  {
    Coord(c.lat + (r1 - 0.5) * spread, c.lng + (r2 - 0.5) * spread)
  }

  /**
   * `getCoordinates`: declared to return `null` sometimes, it never does. A known municipality
   * wins over a known department, and each lies within its half-spread of the table entry; with
   * neither known the point lies within 2 degrees of the centre.
   */
  function GetCoordinates(municipio: string, departamento: string, r1: real, r2: real): (c: Option<Coord>)
    ensures c.Some?
    ensures IsDraw(r1) && IsDraw(r2) ==>
      var m, d := Lookup(COORDINATES, Trim(ToUpper(municipio))), Lookup(COORDINATES, Trim(ToUpper(departamento)));
      && (m.Some? ==> Near(c.value, m.value, 0.005))
      && (m.None? && d.Some? ==> Near(c.value, d.value, 0.25))
      && (m.None? && d.None? ==> Near(c.value, CENTER, 2.0))
  {
    match Lookup(COORDINATES, Trim(ToUpper(municipio)))
    case Some(m) => Some(Jitter(m, MUNICIPIO_SPREAD, r1, r2))
    case None =>
      match Lookup(COORDINATES, Trim(ToUpper(departamento)))
      case Some(d) => Some(Jitter(d, DEPARTAMENTO_SPREAD, r1, r2))
      case None => Some(Jitter(CENTER, CENTER_SPREAD, r1, r2))
  }

  /** When the municipality is known, the department plays no part. */
  lemma MunicipalityFirst(municipio: string, d1: string, d2: string, r1: real, r2: real)
    requires Lookup(COORDINATES, Trim(ToUpper(municipio))).Some?
    ensures GetCoordinates(municipio, d1, r1, r2) == GetCoordinates(municipio, d2, r1, r2)
  {
  }

  // ---------------------------------------------------------------- the scan

  datatype MapPoint = MapPoint(
    id: string,
    lat: real,
    lng: real,
    municipio: string,
    departamento: string,
    severity: Severity,
    tipo: string,
    score: real,
    year: string)

  datatype Stats = Stats(total: nat, alta: nat, media: nat, baja: nat)

  datatype MapResult = MapResult(points: seq<MapPoint>, stats: Stats)

  /** The result of the `catch` block. */
  const EMPTY := MapResult([], Stats(0, 0, 0, 0))

  const MAX_POINTS_RETURNED: nat := 3000
  const MIN_VALUES: nat := 10
  const ALL_DEPARTMENTS := "TODOS"

  /** `value || fallback`. */
  function OrElse(f: Option<string>, fallback: string): (v: string)
    ensures Truthy(f) ==> v == f.value
    ensures !Truthy(f) ==> v == fallback
  {
    if Truthy(f) then f.value else fallback
  }

  /** The normalised filter: `filterDepartamento.toUpperCase().trim()`. */
  function Target(filter: string): string {
    Trim(ToUpper(filter))
  }

  predicate IsFiltering(filter: string) {
    Target(filter) != ALL_DEPARTMENTS
  }

  const UNKNOWN_PLACE := "DESCONOCIDO"

  /** `(value || "DESCONOCIDO").trim()`; the fallback has no surrounding whitespace to trim. */
  function Place(f: Option<string>): string {
    if Truthy(f) then Trim(f.value) else UNKNOWN_PLACE
  }

  function Department(values: Row): string {
    Place(Field(values, 1))
  }

  /** A line yields a point (cap aside) when non-blank, at least ten values wide, and in the filtered department. */
  predicate IsCandidate(line: string, filter: string) {
    && Trim(line) != []
    && |Values(line)| >= MIN_VALUES
    && (!IsFiltering(filter) || ToUpper(Department(Values(line))) == Target(filter))
  }

  /** The indices `i`, `1 <= i < n`, of the candidate lines, in file order. */
  function Candidates(lines: seq<string>, filter: string, n: nat): (ids: seq<nat>)
    requires n <= |lines|
    ensures InRange(ids, |lines|)
  {
    FilterMapSpec(lines, 1, n, line => IsCandidate(line, filter), line => line);
    KeptIndices(lines, 1, n, line => IsCandidate(line, filter))
  }

  /** What one point is built from: the values of a line, its index in the file, and two draws. */
  datatype PointInput = PointInput(values: Row, index: nat, parse: Parser, r1: real, r2: real)

  /** The point built from `x.values`, the values of the `x.index`-th line, placed with draws `x.r1` and `x.r2`. */
  function PointAt(x: PointInput): MapPoint {
    var values := x.values;
    var departamento := Department(values);
    var municipio := Place(Field(values, 2));
    var score := ParseField(x.parse, Field(values, 8)).GetOr(0.0);
    var coords := GetCoordinates(municipio, departamento, x.r1, x.r2).value;
    MapPoint(
      id := "p-" + NatToString(x.index),
      lat := coords.lat,
      lng := coords.lng,
      municipio := municipio,
      departamento := departamento,
      severity := Classify(score),
      tipo := ReplaceAll(ToLower(OrElse(Field(values, 9), "desconocido")), '_', ' '),
      score := score,
      year := OrElse(Field(values, 4), "2024"))
  }

  /** Draw `j` of the `k`-th point: the `2 * k + j`-th call to `Math.random`. */
  function Draw(rand: nat -> real, k: nat, j: nat): real {
    rand(2 * k + j)
  }

  ghost predicate AllDraws(rand: nat -> real) {
    forall n: nat :: IsDraw(rand(n))
  }

  predicate InRange(ids: seq<nat>, n: nat) {
    forall k | 0 <= k < |ids| :: ids[k] < n
  }

  /** The inputs of the points from the lines `ids`: the `k`-th takes draws `2 * k` and `2 * k + 1`. */
  function Inputs(lines: seq<string>, ids: seq<nat>, parse: Parser, rand: nat -> real): (xs: seq<PointInput>)
    requires InRange(ids, |lines|)
    ensures |xs| == |ids|
  {
    seq(|ids|, k requires 0 <= k < |ids| => InputAt(lines, ids, parse, rand, k))
  }

  /** The input of the `k`-th point. */
  function InputAt(lines: seq<string>, ids: seq<nat>, parse: Parser, rand: nat -> real, k: nat): PointInput
    requires InRange(ids, |lines|) && k < |ids|
  {
    PointInput(Values(lines[ids[k]]), ids[k], parse, Draw(rand, k, 0), Draw(rand, k, 1))
  }

  lemma InputsAt(lines: seq<string>, ids: seq<nat>, parse: Parser, rand: nat -> real, k: nat)
    requires InRange(ids, |lines|) && k < |ids|
    ensures Inputs(lines, ids, parse, rand)[k] == PointInput(Values(lines[ids[k]]), ids[k], parse, Draw(rand, k, 0), Draw(rand, k, 1))
  {
  }

  function Points(lines: seq<string>, ids: seq<nat>, parse: Parser, rand: nat -> real): (ps: seq<MapPoint>)
    requires InRange(ids, |lines|)
    ensures |ps| == |ids|
  {
    MapSeq(Inputs(lines, ids, parse, rand), PointAt)
  }

  /** The `k`-th point comes from the `k`-th line listed. */
  lemma PointsAt(lines: seq<string>, ids: seq<nat>, parse: Parser, rand: nat -> real, k: nat)
    requires InRange(ids, |lines|) && k < |ids|
    ensures Points(lines, ids, parse, rand)[k] == PointAt(PointInput(Values(lines[ids[k]]), ids[k], parse, Draw(rand, k, 0), Draw(rand, k, 1)))
  {
    InputsAt(lines, ids, parse, rand, k);
    MapSeqAt(Inputs(lines, ids, parse, rand), PointAt, k);
  }

  /** The number of points of severity `s`. */
  function CountSeverity(ps: seq<MapPoint>, s: Severity): (n: nat)
    ensures n <= |ps|
  {
    if ps == [] then 0
    else CountSeverity(ps[..|ps| - 1], s) + (if ps[|ps| - 1].severity == s then 1 else 0)
  }

  /** The lines that become points: the first 3000 candidates. */
  function PointLines(lines: seq<string>, filter: string): (ids: seq<nat>)
    ensures |ids| <= MAX_POINTS_RETURNED
    ensures InRange(ids, |lines|)
  {
    FilterMapSpec(lines, 1, |lines|, line => IsCandidate(line, filter), line => line);
    FirstKept(lines, 1, |lines|, line => IsCandidate(line, filter), MAX_POINTS_RETURNED)
  }

  /** What `getMapData(filter)` resolves to, given the read's outcome. */
  function MapDataFor(file: Option<string>, filter: string, parse: Parser, rand: nat -> real): MapResult {
    if file.None? then EMPTY
    else
      var lines := Lines(file.value);
      var ps := Points(lines, PointLines(lines, filter), parse, rand);
      MapResult(ps, Stats(|ps|, CountSeverity(ps, Alta), CountSeverity(ps, Media), CountSeverity(ps, Baja)))
  }

  /** The three counters partition the points. */
  lemma {:induction false} SeverityPartition(ps: seq<MapPoint>)
    ensures CountSeverity(ps, Alta) + CountSeverity(ps, Media) + CountSeverity(ps, Baja) == |ps|
  {
    if ps != [] {
      SeverityPartition(ps[..|ps| - 1]);
    }
  }

  /** One point's id names its line, and blank place and year values take their defaults. */
  lemma PointFields(line: string, i: nat, parse: Parser, r1: real, r2: real)
    requires |Values(line)| >= MIN_VALUES
    ensures var p, values := PointAt(PointInput(Values(line), i, parse, r1, r2)), Values(line);
      && p.id == "p-" + NatToString(i)
      && p.departamento == (if values[1] == [] then UNKNOWN_PLACE else Trim(values[1]))
      && p.municipio == (if values[2] == [] then UNKNOWN_PLACE else Trim(values[2]))
      && p.year == (if values[4] == [] then "2024" else values[4])
  {
  }

  /**
   * One point's score is the parsed score or 0, and its severity that score's class (so an
   * unparseable score is low); its type is the lower-cased type, or "desconocido", with
   * underscores turned into spaces.
   */
  lemma PointClass(line: string, i: nat, parse: Parser, r1: real, r2: real)
    requires |Values(line)| >= MIN_VALUES
    ensures var p, values := PointAt(PointInput(Values(line), i, parse, r1, r2)), Values(line);
      && p.score == parse(values[8]).GetOr(0.0)
      && p.severity == Classify(p.score)
      && (parse(values[8]).None? ==> p.severity == Baja)
      && p.tipo == ReplaceAll(ToLower(if values[9] == [] then "desconocido" else values[9]), '_', ' ')
      && '_' !in p.tipo
  {
  }

  /** With the filter on, a candidate's point is in the filtered department. */
  lemma PointFilter(line: string, i: nat, filter: string, parse: Parser, r1: real, r2: real)
    requires IsCandidate(line, filter)
    ensures IsFiltering(filter) ==> ToUpper(PointAt(PointInput(Values(line), i, parse, r1, r2)).departamento) == Target(filter)
  {
  }

  /** A point lies near its municipality, else near its department, else near the centre. */
  lemma PointPlace(line: string, i: nat, parse: Parser, r1: real, r2: real)
    requires IsDraw(r1) && IsDraw(r2)
    ensures var p := PointAt(PointInput(Values(line), i, parse, r1, r2));
      var m, d := Lookup(COORDINATES, Trim(ToUpper(p.municipio))), Lookup(COORDINATES, Trim(ToUpper(p.departamento)));
      && (m.Some? ==> Near(Coord(p.lat, p.lng), m.value, 0.005))
      && (m.None? && d.Some? ==> Near(Coord(p.lat, p.lng), d.value, 0.25))
      && (m.None? && d.None? ==> Near(Coord(p.lat, p.lng), CENTER, 2.0))
  {
  }

  /** A position in the point list determines the line index behind it, and its text. */
  lemma PointFrom(lines: seq<string>, filter: string, parse: Parser, rand: nat -> real, k: nat)
    requires k < |PointLines(lines, filter)|
    ensures var ids := PointLines(lines, filter);
      && 1 <= ids[k] < |lines|
      && IsCandidate(lines[ids[k]], filter)
      && Points(lines, ids, parse, rand)[k] == PointAt(PointInput(Values(lines[ids[k]]), ids[k], parse, Draw(rand, k, 0), Draw(rand, k, 1)))
  {
    var ids := PointLines(lines, filter);
    FirstKeptAt(lines, 1, |lines|, line => IsCandidate(line, filter), MAX_POINTS_RETURNED, k);
    PointsAt(lines, ids, parse, rand, k);
  }

  /** The `k`-th point's id names the line it comes from. */
  lemma PointId(lines: seq<string>, filter: string, parse: Parser, rand: nat -> real, k: nat)
    requires k < |PointLines(lines, filter)|
    ensures var ids := PointLines(lines, filter);
      Points(lines, ids, parse, rand)[k].id == "p-" + NatToString(ids[k])
  {
    var ids := PointLines(lines, filter);
    PointFrom(lines, filter, parse, rand, k);
    PointFields(lines[ids[k]], ids[k], parse, Draw(rand, k, 0), Draw(rand, k, 1));
  }

  /** Points come from distinct lines, so their ids are distinct. */
  lemma IdsDistinct(lines: seq<string>, filter: string, parse: Parser, rand: nat -> real)
    ensures var ps := Points(lines, PointLines(lines, filter), parse, rand);
      forall j, k | 0 <= j < k < |ps| :: ps[j].id != ps[k].id
  {
    var ps := Points(lines, PointLines(lines, filter), parse, rand);
    forall j, k | 0 <= j < k < |ps| ensures ps[j].id != ps[k].id {
      IdsDiffer(lines, filter, parse, rand, j, k);
    }
  }

  lemma IdsDiffer(lines: seq<string>, filter: string, parse: Parser, rand: nat -> real, j: nat, k: nat)
    requires j < k < |PointLines(lines, filter)|
    ensures var ps := Points(lines, PointLines(lines, filter), parse, rand);
      ps[j].id != ps[k].id
  {
    var ids := PointLines(lines, filter);
    var ps := Points(lines, ids, parse, rand);
    FirstKeptIncreasing(lines, 1, |lines|, line => IsCandidate(line, filter), MAX_POINTS_RETURNED);
    assert ids[j] < ids[k];
    PointId(lines, filter, parse, rand, j);
    PointId(lines, filter, parse, rand, k);
    NatToStringInjective(ids[j], ids[k]);
    assert ps[j].id[2..] == NatToString(ids[j]);
    assert ps[k].id[2..] == NatToString(ids[k]);
  }

  /** With the filter on, every point is in the filtered department. */
  lemma FilterHolds(lines: seq<string>, filter: string, parse: Parser, rand: nat -> real)
    requires IsFiltering(filter)
    ensures var ps := Points(lines, PointLines(lines, filter), parse, rand);
      forall k | 0 <= k < |ps| :: ToUpper(ps[k].departamento) == Target(filter)
  {
    var ids := PointLines(lines, filter);
    var ps := Points(lines, ids, parse, rand);
    forall k | 0 <= k < |ps| ensures ToUpper(ps[k].departamento) == Target(filter) {
      PointFrom(lines, filter, parse, rand, k);
      PointFilter(lines[ids[k]], ids[k], filter, parse, Draw(rand, k, 0), Draw(rand, k, 1));
    }
  }

  /**
   * The whole result: a failed read gives no points and zero counts; otherwise the points are
   * the first 3000 candidate lines in file order (a line yields a point exactly when it is a
   * candidate and fewer than 3000 candidates precede it), ids are distinct, the filter holds
   * of every point, and the counters partition the points.
   */
  lemma MapDataSpec(file: Option<string>, filter: string, parse: Parser, rand: nat -> real)
    ensures var d := MapDataFor(file, filter, parse, rand);
      && (file.None? ==> d == EMPTY)
      && |d.points| <= MAX_POINTS_RETURNED
      && d.stats.total == |d.points| == d.stats.alta + d.stats.media + d.stats.baja
      && (forall j, k | 0 <= j < k < |d.points| :: d.points[j].id != d.points[k].id)
      && (IsFiltering(filter) ==> forall k | 0 <= k < |d.points| :: ToUpper(d.points[k].departamento) == Target(filter))
    ensures file.Some? ==>
      var lines, d := Lines(file.value), MapDataFor(file, filter, parse, rand);
      var ids := PointLines(lines, filter);
      && Increasing(ids)
      && (forall i | 1 <= i < |lines| ::
            i in ids <==> IsCandidate(lines[i], filter) && |Candidates(lines, filter, i)| < MAX_POINTS_RETURNED)
  {
    var d := MapDataFor(file, filter, parse, rand);
    SeverityPartition(d.points);
    if file.Some? {
      var lines := Lines(file.value);
      assert d.points == Points(lines, PointLines(lines, filter), parse, rand);
      IdsDistinct(lines, filter, parse, rand);
      if IsFiltering(filter) {
        FilterHolds(lines, filter, parse, rand);
      }
      PointLinesSpec(lines, filter);
    }
  }

  /** The lines that become points are in file order, and a line is one exactly when it is a candidate and fewer than 3000 candidates precede it. */
  lemma PointLinesSpec(lines: seq<string>, filter: string)
    ensures var ids := PointLines(lines, filter);
      && Increasing(ids)
      && (forall i | 1 <= i < |lines| ::
            i in ids <==> IsCandidate(lines[i], filter) && |Candidates(lines, filter, i)| < MAX_POINTS_RETURNED)
  {
    FirstKeptIncreasing(lines, 1, |lines|, line => IsCandidate(line, filter), MAX_POINTS_RETURNED);
    FirstKeptMembers(lines, 1, |lines|, line => IsCandidate(line, filter), MAX_POINTS_RETURNED);
  }

  /** Listing one more line adds its input, with the next two draws. */
  lemma InputsAppend(lines: seq<string>, ids: seq<nat>, i: nat, parse: Parser, rand: nat -> real)
    requires InRange(ids, |lines|) && i < |lines|
    ensures InRange(ids + [i], |lines|)
    ensures var k := |ids|;
      Inputs(lines, ids + [i], parse, rand)
      == Inputs(lines, ids, parse, rand) + [PointInput(Values(lines[i]), i, parse, Draw(rand, k, 0), Draw(rand, k, 1))]
  {
    var ids', k := ids + [i], |ids|;
    var before, after := Inputs(lines, ids, parse, rand), Inputs(lines, ids', parse, rand);
    var x := PointInput(Values(lines[i]), i, parse, Draw(rand, k, 0), Draw(rand, k, 1));
    forall j | 0 <= j < |after| ensures after[j] == (before + [x])[j] {
      if j < k {
        assert ids'[j] == ids[j];
        assert after[j] == InputAt(lines, ids', parse, rand, j) == InputAt(lines, ids, parse, rand, j);
      }
    }
  }

  /** One more line scanned: its index joins the candidates exactly when the line is one. */
  lemma CandidatesStep(lines: seq<string>, filter: string, i: nat)
    requires 1 <= i < |lines|
    ensures Candidates(lines, filter, i + 1)
      == Candidates(lines, filter, i) + (if IsCandidate(lines[i], filter) then [i] else [])
  {
  }

  lemma CountAppend(ps: seq<MapPoint>, p: MapPoint, s: Severity)
    ensures CountSeverity(ps + [p], s) == CountSeverity(ps, s) + (if p.severity == s then 1 else 0)
  {
    assert (ps + [p])[..|ps|] == ps;
  }

  /** The skip tests of the scan: the values of a blank, short or filtered-out line are not read. */
  method ReadValues(rawLine: string, filterDepartamento: string) returns (values: Option<Row>)
    ensures values.None? <==> !IsCandidate(rawLine, filterDepartamento)
    ensures values.Some? ==> values.value == Values(rawLine)
  {
    var targetDept := Trim(ToUpper(filterDepartamento));
    var isFiltering := targetDept != ALL_DEPARTMENTS;
    var line := Trim(rawLine);
    if line == [] {
      return None;
    }
    var row := Split(line, ',');
    if |row| < MIN_VALUES {
      return None;
    }
    var departamento := Place(Field(row, 1));
    if isFiltering && ToUpper(departamento) != targetDept {
      return None;
    }
    values := Some(row);
  }

  /**
   * The rest of the scan's body: classify the score, bump the matching counter, and build the
   * point.
   */
  method BuildPoint(x: PointInput, alta: nat, media: nat, baja: nat)
    returns (point: MapPoint, alta': nat, media': nat, baja': nat)
    ensures point == PointAt(x)
    ensures alta' == alta + (if point.severity == Alta then 1 else 0)
    ensures media' == media + (if point.severity == Media then 1 else 0)
    ensures baja' == baja + (if point.severity == Baja then 1 else 0)
  {
    var values := x.values;
    var departamento := Place(Field(values, 1));
    var municipio := Place(Field(values, 2));
    var year := OrElse(Field(values, 4), "2024");
    var score := ParseField(x.parse, Field(values, 8)).GetOr(0.0);
    var tipoAnomalia := OrElse(Field(values, 9), "desconocido");
    alta', media', baja' := alta, media, baja;
    var severity := Baja;
    if score < HIGH_THRESHOLD {
      severity := Alta;
      alta' := alta + 1;
    } else if score < MEDIUM_THRESHOLD {
      severity := Media;
      media' := media + 1;
    } else {
      baja' := baja + 1;
    }
    var coords := GetCoordinates(municipio, departamento, x.r1, x.r2).value;
    point := MapPoint(
      id := "p-" + NatToString(x.index),
      lat := coords.lat,
      lng := coords.lng,
      municipio := municipio,
      departamento := departamento,
      severity := severity,
      tipo := ReplaceAll(ToLower(tipoAnomalia), '_', ' '),
      score := score,
      year := year);
  }

  /**
   * The action itself: one pass over the lines after the header, counting severities as it
   * goes and stopping at 3000 points.
   */
  method GetMapData(file: Option<string>, filterDepartamento: string, parse: Parser, rand: nat -> real)
    returns (d: MapResult)
    ensures d == MapDataFor(file, filterDepartamento, parse, rand)
  {
    if file.None? {
      return EMPTY;
    }
    var lines := Lines(file.value);
    var points: seq<MapPoint> := [];
    var alta, media, baja := 0, 0, 0;
    ghost var ids: seq<nat> := [];
    for i := 1 to |lines|
      invariant ids == Candidates(lines, filterDepartamento, i)
      invariant points == Points(lines, ids, parse, rand)
      invariant |points| < MAX_POINTS_RETURNED
      invariant alta == CountSeverity(points, Alta)
      invariant media == CountSeverity(points, Media)
      invariant baja == CountSeverity(points, Baja)
    {
      CandidatesStep(lines, filterDepartamento, i);
      var values := ReadValues(lines[i], filterDepartamento);
      if values.None? {
        continue;
      }
      var k := |points|;
      var x := PointInput(values.value, i, parse, Draw(rand, k, 0), Draw(rand, k, 1));
      var point;
      point, alta, media, baja := BuildPoint(x, alta, media, baja);
      InputsAppend(lines, ids, i, parse, rand);
      MapSeqAppend(Inputs(lines, ids, parse, rand), x, PointAt);
      CountAppend(points, point, Alta);
      CountAppend(points, point, Media);
      CountAppend(points, point, Baja);
      points := points + [point];
      ids := ids + [i];
      if |points| >= MAX_POINTS_RETURNED {
        FirstKeptStops(lines, 1, i + 1, |lines|, line => IsCandidate(line, filterDepartamento), MAX_POINTS_RETURNED);
        return MapResult(points, Stats(|points|, alta, media, baja));
      }
    }
    FirstKeptStops(lines, 1, |lines|, |lines|, line => IsCandidate(line, filterDepartamento), MAX_POINTS_RETURNED);
    d := MapResult(points, Stats(|points|, alta, media, baja));
  }
}
