/**
 * The request body of the prediction endpoints (backend/app/schemas/prediction.py,
 * `PredioInput`): fifteen required fields, six strings and nine numbers, with the bounds the
 * schema declares. A JSON body is read as the value it holds for each field, or none when the
 * key is absent; validation accepts it
 * exactly when every field is present, of its type, and within its bounds, and otherwise
 * names the fields that fail, in declaration order.
 */
module PredioSchema {
  import opened Wrappers
  import opened Scan

  datatype Field =
    | DEPARTAMENTO | MUNICIPIO | TIPO_PREDIO_ZONA | CATEGORIA_RURALIDAD | ORIP | ESTADO_FOLIO
    | YEAR_RADICA | NUM_ANOTACION | DINAMICA_INMOBILIARIA | COD_NATUJUR | COUNT_A | COUNT_DE
    | PREDIOS_NUEVOS | TIENE_MAS_DE_UN_VALOR | VALOR_CONSTANTE_2024

  /** The fields in the order the schema declares them. */
  const FIELDS: seq<Field> := [
    DEPARTAMENTO, MUNICIPIO, TIPO_PREDIO_ZONA, CATEGORIA_RURALIDAD, ORIP, ESTADO_FOLIO,
    YEAR_RADICA, NUM_ANOTACION, DINAMICA_INMOBILIARIA, COD_NATUJUR, COUNT_A, COUNT_DE,
    PREDIOS_NUEVOS, TIENE_MAS_DE_UN_VALOR, VALOR_CONSTANTE_2024
  ]

  /** The JSON key of a field. */
  function Key(f: Field): string {
    match f
    case DEPARTAMENTO => "DEPARTAMENTO"
    case MUNICIPIO => "MUNICIPIO"
    case TIPO_PREDIO_ZONA => "TIPO_PREDIO_ZONA"
    case CATEGORIA_RURALIDAD => "CATEGORIA_RURALIDAD"
    case ORIP => "ORIP"
    case ESTADO_FOLIO => "ESTADO_FOLIO"
    case YEAR_RADICA => "YEAR_RADICA"
    case NUM_ANOTACION => "NUM_ANOTACION"
    case DINAMICA_INMOBILIARIA => "Dinámica_Inmobiliaria"
    case COD_NATUJUR => "COD_NATUJUR"
    case COUNT_A => "COUNT_A"
    case COUNT_DE => "COUNT_DE"
    case PREDIOS_NUEVOS => "PREDIOS_NUEVOS"
    case TIENE_MAS_DE_UN_VALOR => "TIENE_MAS_DE_UN_VALOR"
    case VALOR_CONSTANTE_2024 => "VALOR_CONSTANTE_2024"
  }

  /** A JSON value: a string, a number written without a fraction, one written with a fraction, or anything else. */
  datatype Json = JString(s: string) | JInt(i: int) | JFloat(r: real) | JOther

  /** A request body: the value under each field's key, `None` when the key is absent. */
  type Body = Field -> Option<Json>

  datatype PredioInput = PredioInput(
    departamento: string, municipio: string, tipoPredioZona: string,
    categoriaRuralidad: string, orip: string, estadoFolio: string,
    yearRadica: int, numAnotacion: int, dinamicaInmobiliaria: int, codNatujur: int,
    countA: int, countDe: int, prediosNuevos: int, tieneMasDeUnValor: int,
    valorConstante2024: real)

  const MIN_YEAR := 1900
  const MAX_YEAR := 2100

  /** The declared bounds: the year in [1900, 2100], five counts at least 0, a 0/1 flag, a positive value. */
  predicate Valid(p: PredioInput) {
    && MIN_YEAR <= p.yearRadica <= MAX_YEAR
    && p.numAnotacion >= 0 && p.dinamicaInmobiliaria >= 0
    && p.countA >= 0 && p.countDe >= 0 && p.prediosNuevos >= 0
    && 0 <= p.tieneMasDeUnValor <= 1
    && p.valorConstante2024 > 0.0
  }

  predicate IsStringField(f: Field) {
    f in {DEPARTAMENTO, MUNICIPIO, TIPO_PREDIO_ZONA, CATEGORIA_RURALIDAD, ORIP, ESTADO_FOLIO}
  }

  /** Whether the schema accepts `v` for field `f`. A `float` field also takes a whole number. */
  predicate Accepts(f: Field, v: Json) {
    match f
    case YEAR_RADICA => v.JInt? && MIN_YEAR <= v.i <= MAX_YEAR
    case NUM_ANOTACION => v.JInt? && v.i >= 0
    case DINAMICA_INMOBILIARIA => v.JInt? && v.i >= 0
    case COD_NATUJUR => v.JInt?
    case COUNT_A => v.JInt? && v.i >= 0
    case COUNT_DE => v.JInt? && v.i >= 0
    case PREDIOS_NUEVOS => v.JInt? && v.i >= 0
    case TIENE_MAS_DE_UN_VALOR => v.JInt? && 0 <= v.i <= 1
    case VALOR_CONSTANTE_2024 => (v.JFloat? && v.r > 0.0) || (v.JInt? && v.i > 0)
    case _ => v.JString?
  }

  /** A field is in error when it is missing or its value is not accepted. */
  predicate Fails(body: Body, f: Field) {
    body(f).None? || !Accepts(f, body(f).value)
  }

  function FailsFn(body: Body): Field -> bool {
    f => Fails(body, f)
  }

  /** The fields in error, in declaration order. */
  function Errors(body: Body): (errs: seq<Field>)
    ensures |errs| <= |FIELDS|
  {
    Filter(FIELDS, FailsFn(body))
  }

  datatype Outcome = Accepted(predio: PredioInput) | Rejected(fields: seq<Field>)

  function Str(v: Option<Json>): string {
    if v.Some? && v.value.JString? then v.value.s else ""
  }

  function Int(v: Option<Json>): int {
    if v.Some? && v.value.JInt? then v.value.i else 0
  }

  /** A `float` field's value: a whole number is widened. */
  function Float(v: Option<Json>): real {
    if v.Some? && v.value.JFloat? then v.value.r
    else if v.Some? && v.value.JInt? then v.value.i as real
    else 0.0
  }

  /** The record a body holds, read field by field. */
  function Build(body: Body): PredioInput {
    PredioInput(
      Str(body(DEPARTAMENTO)), Str(body(MUNICIPIO)), Str(body(TIPO_PREDIO_ZONA)),
      Str(body(CATEGORIA_RURALIDAD)), Str(body(ORIP)), Str(body(ESTADO_FOLIO)),
      Int(body(YEAR_RADICA)), Int(body(NUM_ANOTACION)), Int(body(DINAMICA_INMOBILIARIA)),
      Int(body(COD_NATUJUR)), Int(body(COUNT_A)), Int(body(COUNT_DE)),
      Int(body(PREDIOS_NUEVOS)), Int(body(TIENE_MAS_DE_UN_VALOR)),
      Float(body(VALOR_CONSTANTE_2024)))
  }

  /** Every field is listed in `FIELDS`. */
  lemma EveryFieldListed(f: Field)
    ensures f in FIELDS
  {
  }

  /** Validation of a request body. */
  function Validate(body: Body): (o: Outcome)
    ensures o.Rejected? ==> o.fields != []
  {
    var errs := Errors(body);
    if errs == [] then Accepted(Build(body))
    else Rejected(errs)
  }

  /** A body in which no field fails holds a record within every bound. */
  lemma BuildValid(body: Body)
    requires forall f :: !Fails(body, f)
    ensures Valid(Build(body))
  {
    assert !Fails(body, YEAR_RADICA) && !Fails(body, NUM_ANOTACION) && !Fails(body, DINAMICA_INMOBILIARIA);
    assert !Fails(body, COUNT_A) && !Fails(body, COUNT_DE) && !Fails(body, PREDIOS_NUEVOS);
    assert !Fails(body, TIENE_MAS_DE_UN_VALOR) && !Fails(body, VALOR_CONSTANTE_2024);
  }

  /** The fields in error are exactly those that fail, each once, in declaration order. */
  lemma ErrorsSpec(body: Body)
    ensures Subsequence(Errors(body), FIELDS)
    ensures forall f :: f in Errors(body) <==> Fails(body, f)
  {
    FilterSpec(FIELDS, FailsFn(body));
    forall f ensures f in Errors(body) <==> Fails(body, f) {
      EveryFieldListed(f);
      FilterMembers(FIELDS, FailsFn(body), f);
    }
  }

  /**
   * A body is accepted exactly when no field fails, and then the record is valid; a rejected
   * body names exactly the fields that fail, each once, in declaration order.
   */
  lemma ValidateSpec(body: Body)
    ensures Validate(body).Accepted? <==> forall f :: !Fails(body, f)
    ensures Validate(body).Accepted? ==> Valid(Validate(body).predio)
    ensures Validate(body).Rejected? ==>
      && Subsequence(Validate(body).fields, FIELDS)
      && forall f :: f in Validate(body).fields <==> Fails(body, f)
  {
    ErrorsSpec(body);
    if Errors(body) == [] {
      BuildValid(body);
    } else {
      var f := Errors(body)[0];
      assert f in Errors(body);
    }
  }

  /** The JSON value a client sends for one field of a record. */
  function ValueOf(p: PredioInput, f: Field): Json {
    match f
    case DEPARTAMENTO => JString(p.departamento)
    case MUNICIPIO => JString(p.municipio)
    case TIPO_PREDIO_ZONA => JString(p.tipoPredioZona)
    case CATEGORIA_RURALIDAD => JString(p.categoriaRuralidad)
    case ORIP => JString(p.orip)
    case ESTADO_FOLIO => JString(p.estadoFolio)
    case YEAR_RADICA => JInt(p.yearRadica)
    case NUM_ANOTACION => JInt(p.numAnotacion)
    case DINAMICA_INMOBILIARIA => JInt(p.dinamicaInmobiliaria)
    case COD_NATUJUR => JInt(p.codNatujur)
    case COUNT_A => JInt(p.countA)
    case COUNT_DE => JInt(p.countDe)
    case PREDIOS_NUEVOS => JInt(p.prediosNuevos)
    case TIENE_MAS_DE_UN_VALOR => JInt(p.tieneMasDeUnValor)
    case VALOR_CONSTANTE_2024 => JFloat(p.valorConstante2024)
  }

  /** The body a client sends for a record: every field, as a JSON string or number. */
  function Encode(p: PredioInput): (body: Body) {
    f => Some(ValueOf(p, f))
  }

  /** A valid record's body has no field in error. */
  lemma EncodeAccepted(p: PredioInput, f: Field)
    requires Valid(p)
    ensures !Fails(Encode(p), f)
  {
    match f
    case YEAR_RADICA =>
    case NUM_ANOTACION =>
    case DINAMICA_INMOBILIARIA =>
    case COD_NATUJUR =>
    case COUNT_A =>
    case COUNT_DE =>
    case PREDIOS_NUEVOS =>
    case TIENE_MAS_DE_UN_VALOR =>
    case VALOR_CONSTANTE_2024 =>
    case _ => assert IsStringField(f);
  }

  /** With no field in error the body is accepted as the record it holds; with one it is rejected. */
  lemma ValidateCases(body: Body)
    ensures (forall f :: !Fails(body, f)) ==> Validate(body) == Accepted(Build(body))
    ensures (exists f :: Fails(body, f)) ==> Validate(body).Rejected?
  {
    var errs := Errors(body);
    ErrorsSpec(body);
    if errs != [] {
      assert errs[0] in errs;
      assert Fails(body, errs[0]);
    }
  }

  /** Reading back the body of a record gives the record. */
  lemma BuildEncode(p: PredioInput)
    ensures Build(Encode(p)) == p
  {
  }

  /** Sending a record and validating it gives the record back exactly when it is valid. */
  lemma EncodeRoundTrip(p: PredioInput)
    ensures Valid(p) ==> Validate(Encode(p)) == Accepted(p)
    ensures !Valid(p) ==> Validate(Encode(p)).Rejected?
  {
    var body := Encode(p);
    ValidateCases(body);
    BuildEncode(p);
    if Valid(p) {
      forall f ensures !Fails(body, f) {
        EncodeAccepted(p, f);
      }
    } else {
      InvalidFails(p);
    }
  }

  /** A record outside some bound has a field in error in its body. */
  lemma InvalidFails(p: PredioInput)
    requires !Valid(p)
    ensures exists f :: Fails(Encode(p), f)
  {
    var body := Encode(p);
    if !(MIN_YEAR <= p.yearRadica <= MAX_YEAR) {
      assert Fails(body, YEAR_RADICA);
    } else if p.numAnotacion < 0 {
      assert Fails(body, NUM_ANOTACION);
    } else if p.dinamicaInmobiliaria < 0 {
      assert Fails(body, DINAMICA_INMOBILIARIA);
    } else if p.countA < 0 {
      assert Fails(body, COUNT_A);
    } else if p.countDe < 0 {
      assert Fails(body, COUNT_DE);
    } else if p.prediosNuevos < 0 {
      assert Fails(body, PREDIOS_NUEVOS);
    } else if !(0 <= p.tieneMasDeUnValor <= 1) {
      assert Fails(body, TIENE_MAS_DE_UN_VALOR);
    } else {
      assert Fails(body, VALOR_CONSTANTE_2024);
    }
  }

  /** The body with `VALOR_CONSTANTE_2024` written as the whole number `n`. */
  function Respell(body: Body, n: int): Body {
    f => if f == VALOR_CONSTANTE_2024 then Some(JInt(n)) else body(f)
  }

  /** Respelling the value as the same whole number reads back the same record. */
  lemma BuildRespell(p: PredioInput, n: int)
    requires p.valorConstante2024 == n as real
    ensures Build(Respell(Encode(p), n)) == p
  {
    var body, e := Respell(Encode(p), n), Encode(p);
    forall f | f != VALOR_CONSTANTE_2024 ensures body(f) == e(f) {
    }
    assert Float(body(VALOR_CONSTANTE_2024)) == Float(e(VALOR_CONSTANTE_2024));
    BuildAgrees(body, e);
    BuildEncode(p);
  }

  /** Two bodies that agree on every field but the value, and read the same value, hold the same record. */
  lemma BuildAgrees(b1: Body, b2: Body)
    requires forall f | f != VALOR_CONSTANTE_2024 :: b1(f) == b2(f)
    requires Float(b1(VALOR_CONSTANTE_2024)) == Float(b2(VALOR_CONSTANTE_2024))
    ensures Build(b1) == Build(b2)
  {
    assert b1(DEPARTAMENTO) == b2(DEPARTAMENTO) && b1(MUNICIPIO) == b2(MUNICIPIO);
    assert b1(TIPO_PREDIO_ZONA) == b2(TIPO_PREDIO_ZONA) && b1(CATEGORIA_RURALIDAD) == b2(CATEGORIA_RURALIDAD);
    assert b1(ORIP) == b2(ORIP) && b1(ESTADO_FOLIO) == b2(ESTADO_FOLIO);
    assert b1(YEAR_RADICA) == b2(YEAR_RADICA) && b1(NUM_ANOTACION) == b2(NUM_ANOTACION);
    assert b1(DINAMICA_INMOBILIARIA) == b2(DINAMICA_INMOBILIARIA) && b1(COD_NATUJUR) == b2(COD_NATUJUR);
    assert b1(COUNT_A) == b2(COUNT_A) && b1(COUNT_DE) == b2(COUNT_DE);
    assert b1(PREDIOS_NUEVOS) == b2(PREDIOS_NUEVOS) && b1(TIENE_MAS_DE_UN_VALOR) == b2(TIENE_MAS_DE_UN_VALOR);
  }

  /** The same record in a body that spells `VALOR_CONSTANTE_2024` without a fraction is accepted too. */
  lemma WholeValueAccepted(p: PredioInput, n: int)
    requires Valid(p) && p.valorConstante2024 == n as real
    ensures Validate(Respell(Encode(p), n)) == Accepted(p)
  {
    ValidateCases(Respell(Encode(p), n));
    RespellAccepted(p, n);
    BuildRespell(p, n);
  }

  lemma RespellAccepted(p: PredioInput, n: int)
    requires Valid(p) && p.valorConstante2024 == n as real
    ensures forall f :: !Fails(Respell(Encode(p), n), f)
  {
    var body := Respell(Encode(p), n);
    forall f ensures !Fails(body, f) {
      if f != VALOR_CONSTANTE_2024 {
        assert body(f) == Encode(p)(f);
        EncodeAccepted(p, f);
      } else {
        assert body(f) == Some(JInt(n));
      }
    }
  }

  /** The documented example. */
  const EXAMPLE := PredioInput(
    "ANTIOQUIA", "MEDELLIN", "URBANO", "Urbano", "001", "ACTIVO",
    2023, 5, 10, 125, 1, 1, 0, 0, 500000000.0)

  /** The documented example meets every bound, so it is accepted as it stands. */
  lemma ExampleAccepted()
    ensures Valid(EXAMPLE)
    ensures Validate(Respell(Encode(EXAMPLE), 500000000)) == Accepted(EXAMPLE)
  {
    WholeValueAccepted(EXAMPLE, 500000000);
  }

  /** Each bound at its edge: the values just inside are accepted and those just outside are not. */
  lemma Bounds()
    ensures Accepts(YEAR_RADICA, JInt(MIN_YEAR)) && Accepts(YEAR_RADICA, JInt(MAX_YEAR))
    ensures !Accepts(YEAR_RADICA, JInt(MIN_YEAR - 1)) && !Accepts(YEAR_RADICA, JInt(MAX_YEAR + 1))
    ensures forall f | f in {NUM_ANOTACION, DINAMICA_INMOBILIARIA, COUNT_A, COUNT_DE, PREDIOS_NUEVOS} ::
      Accepts(f, JInt(0)) && !Accepts(f, JInt(-1))
    ensures forall n: int :: Accepts(COD_NATUJUR, JInt(n))
    ensures forall n: int :: Accepts(TIENE_MAS_DE_UN_VALOR, JInt(n)) <==> n == 0 || n == 1
    ensures !Accepts(VALOR_CONSTANTE_2024, JFloat(0.0)) && !Accepts(VALOR_CONSTANTE_2024, JInt(0))
    ensures forall f, v | IsStringField(f) :: Accepts(f, v) <==> v.JString?
  {
  }
}
