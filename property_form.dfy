/**
 * The property form of the detection page (frontend/src/components/detection/PropertyInputForm.tsx,
 * with its tables from frontend/src/lib/constants/formDefaults.ts): the form data, the list of
 * municipalities offered for the chosen department, and the handlers that change them.
 */
module PropertyForm {

  /** The fifteen fields of `PredioInput`. */
  datatype FieldName =
    | DEPARTAMENTO | MUNICIPIO | TIPO_PREDIO_ZONA | CATEGORIA_RURALIDAD | ORIP | ESTADO_FOLIO
    | YEAR_RADICA | NUM_ANOTACION | DINAMICA_INMOBILIARIA | COD_NATUJUR | COUNT_A | COUNT_DE
    | PREDIOS_NUEVOS | TIENE_MAS_DE_UN_VALOR | VALOR_CONSTANTE_2024

  /** A field's value: the text of a select or input, or the (possibly NaN) result of `parseInt`/`parseFloat`. */
  datatype Value = Text(text: string) | Num(num: real) | NaN

  /** `formData`: the object, field by field. */
  type FormData = map<FieldName, Value>

  /** Every field is present. */
  predicate Complete(form: FormData) {
    forall f: FieldName :: f in form
  }

  const ALL_FIELDS: set<FieldName> := {
    DEPARTAMENTO, MUNICIPIO, TIPO_PREDIO_ZONA, CATEGORIA_RURALIDAD, ORIP, ESTADO_FOLIO,
    YEAR_RADICA, NUM_ANOTACION, DINAMICA_INMOBILIARIA, COD_NATUJUR, COUNT_A, COUNT_DE,
    PREDIOS_NUEVOS, TIENE_MAS_DE_UN_VALOR, VALOR_CONSTANTE_2024}

  lemma EveryFieldListed()
    ensures forall f: FieldName :: f in ALL_FIELDS
  {
    forall f: FieldName ensures f in ALL_FIELDS {
      match f
      case DEPARTAMENTO => case MUNICIPIO => case TIPO_PREDIO_ZONA => case CATEGORIA_RURALIDAD =>
      case ORIP => case ESTADO_FOLIO => case YEAR_RADICA => case NUM_ANOTACION =>
      case DINAMICA_INMOBILIARIA => case COD_NATUJUR => case COUNT_A => case COUNT_DE =>
      case PREDIOS_NUEVOS => case TIENE_MAS_DE_UN_VALOR => case VALOR_CONSTANTE_2024 =>
    }
  }

  /** A complete form data object from its fifteen values. */
  function Predio(
    departamento: string, municipio: string, tipoPredioZona: string, categoriaRuralidad: string,
    orip: string, estadoFolio: string, year: real, numAnotacion: real, dinamica: real, codNatujur: real,
    countA: real, countDe: real, prediosNuevos: real, tieneMasDeUnValor: real, valor: real): (form: FormData)
    ensures Complete(form)
  {
    var form := map[DEPARTAMENTO := Text(departamento), MUNICIPIO := Text(municipio),
        TIPO_PREDIO_ZONA := Text(tipoPredioZona), CATEGORIA_RURALIDAD := Text(categoriaRuralidad),
        ORIP := Text(orip), ESTADO_FOLIO := Text(estadoFolio), YEAR_RADICA := Num(year),
        NUM_ANOTACION := Num(numAnotacion), DINAMICA_INMOBILIARIA := Num(dinamica),
        COD_NATUJUR := Num(codNatujur), COUNT_A := Num(countA), COUNT_DE := Num(countDe),
        PREDIOS_NUEVOS := Num(prediosNuevos), TIENE_MAS_DE_UN_VALOR := Num(tieneMasDeUnValor),
        VALOR_CONSTANTE_2024 := Num(valor)];
    EveryFieldListed();
    assert ALL_FIELDS <= form.Keys;
    form
  }

  // ---------------------------------------------------------------- tables

  /** `MUNICIPIOS_PRINCIPALES`: the municipalities offered for six departments. */
  const MUNICIPIOS_PRINCIPALES: map<string, seq<string>> := map[
    "ANTIOQUIA" := ["MEDELLIN", "ENVIGADO", "ITAGUI", "BELLO", "RIONEGRO", "LA ESTRELLA", "SABANETA", "CALDAS"],
    "BOGOTÁ D.C." := ["BOGOTÁ"],
    "CUNDINAMARCA" := ["SOACHA", "FUSAGASUGÁ", "CHÍA", "ZIPAQUIRÁ", "FACATATIVÁ", "MOSQUERA", "MADRID", "FUNZA"],
    "VALLE DEL CAUCA" := ["CALI", "PALMIRA", "BUENAVENTURA", "TULUA", "CARTAGO", "BUGA", "JAMUNDÍ", "YUMBO"],
    "ATLÁNTICO" := ["BARRANQUILLA", "SOLEDAD", "MALAMBO", "PUERTO COLOMBIA", "SABANALARGA"],
    "SANTANDER" := ["BUCARAMANGA", "FLORIDABLANCA", "GIRÓN", "PIEDECUESTA", "BARRANCABERMEJA"]
  ]

  /** `MUNICIPIOS_PRINCIPALES[value] || []`. */
  function MunicipiosOf(departamento: Value): (ms: seq<string>)
    ensures departamento.Text? && departamento.text in MUNICIPIOS_PRINCIPALES ==> ms == MUNICIPIOS_PRINCIPALES[departamento.text]
    ensures !(departamento.Text? && departamento.text in MUNICIPIOS_PRINCIPALES) ==> ms == []
  {
    if departamento.Text? && departamento.text in MUNICIPIOS_PRINCIPALES then MUNICIPIOS_PRINCIPALES[departamento.text] else []
  }

  /** `DEFAULT_PREDIO_INPUT`; its year is the current one, `new Date().getFullYear()`. */
  function DefaultInput(currentYear: real): (form: FormData)
    ensures Complete(form)
  {
    Predio("ANTIOQUIA", "MEDELLIN", "URBANO", "Urbano", "003", "ACTIVO", currentYear,
      1.0, 5.0, 125.0, 1.0, 1.0, 0.0, 0.0, 250000000.0)
  }

  /** `EXAMPLE_SCENARIOS`. */
  const EXAMPLE_SCENARIOS: map<string, FormData> := map[
    "lujo_bogota" := Predio("BOGOTÁ D.C.", "BOGOTÁ", "URBANO", "Urbano", "001", "ACTIVO", 2024.0,
      3.0, 15.0, 125.0, 2.0, 1.0, 1.0, 0.0, 1500000000.0),
    "economico_pereira" := Predio("RISARALDA", "PEREIRA", "URBANO", "Urbano", "007", "ACTIVO", 2024.0,
      1.0, 3.0, 125.0, 1.0, 1.0, 0.0, 0.0, 80000000.0),
    "rural_santander" := Predio("SANTANDER", "BUCARAMANGA", "RURAL", "Rural disperso", "006", "ACTIVO", 2023.0,
      2.0, 2.0, 129.0, 1.0, 1.0, 0.0, 0.0, 50000000.0)
  ]

  /** Every scenario fills every field. */
  lemma ScenariosComplete()
    ensures forall k | k in EXAMPLE_SCENARIOS :: Complete(EXAMPLE_SCENARIOS[k])
  {
  }

  // ---------------------------------------------------------------- the department rule

  /** `municipios.includes(formData.MUNICIPIO)`. */
  predicate Offered(municipio: Value, ms: seq<string>) {
    municipio.Text? && municipio.text in ms
  }

  /**
   * The form data after the department select changes: the department is set, and the
   * municipality becomes the new list's first entry (`municipios[0] || ""`) unless the list
   * offers it already.
   */
  function AfterDepartment(before: FormData, departamento: Value): FormData {
    var ms := MunicipiosOf(departamento);
    var set1 := before[DEPARTAMENTO := departamento];
    if MUNICIPIO in before && Offered(before[MUNICIPIO], ms) then set1
    else set1[MUNICIPIO := Text(if |ms| > 0 then ms[0] else "")]
  }

  /**
   * Only the department and the municipality can change; the municipality is kept exactly when
   * the new list offers it, and otherwise is the list's first entry, or empty for a department
   * without a list.
   */
  lemma AfterDepartmentSpec(before: FormData, departamento: Value)
    requires Complete(before)
    ensures var after, ms := AfterDepartment(before, departamento), MunicipiosOf(departamento);
      && Complete(after)
      && after[DEPARTAMENTO] == departamento
      && (forall f | f != DEPARTAMENTO && f != MUNICIPIO :: after[f] == before[f])
      && (Offered(before[MUNICIPIO], ms) <==> after[MUNICIPIO] == before[MUNICIPIO] && Offered(after[MUNICIPIO], ms))
      && (!Offered(before[MUNICIPIO], ms) ==> after[MUNICIPIO] == Text(if ms == [] then "" else ms[0]))
      && (ms != [] ==> Offered(after[MUNICIPIO], ms))
  {
  }

  // ---------------------------------------------------------------- the component state

  class PropertyInputForm {
    var formData: FormData
    var availableMunicipios: seq<string>

    /** Every field is filled. */
    predicate Valid()
      reads this
    {
      Complete(formData)
    }

    /** The municipalities offered are the chosen department's. */
    predicate ListMatches()
      reads this
    {
      DEPARTAMENTO in formData && availableMunicipios == MunicipiosOf(formData[DEPARTAMENTO])
    }

    constructor(currentYear: real)
      ensures formData == DefaultInput(currentYear)
      ensures availableMunicipios == MUNICIPIOS_PRINCIPALES["ANTIOQUIA"]
      ensures Valid() && ListMatches()
    {
      formData := DefaultInput(currentYear);
      availableMunicipios := MunicipiosOf(Text("ANTIOQUIA"));
    }

    /** `handleChange(field, value)`. */
    method HandleChange(field: FieldName, value: Value)
      modifies this
      ensures field != DEPARTAMENTO ==> formData == old(formData)[field := value]
      ensures field != DEPARTAMENTO ==> availableMunicipios == old(availableMunicipios)
      ensures field == DEPARTAMENTO ==> formData == AfterDepartment(old(formData), value)
      ensures field == DEPARTAMENTO ==> availableMunicipios == MunicipiosOf(value)
      ensures old(Valid()) ==> Valid()
      ensures old(ListMatches()) || field == DEPARTAMENTO ==> ListMatches()
    {
      var before := formData;
      formData := formData[field := value];
      if field == DEPARTAMENTO {
        var municipios := MunicipiosOf(value);
        availableMunicipios := municipios;
        if !(MUNICIPIO in before && Offered(before[MUNICIPIO], municipios)) {
          formData := formData[MUNICIPIO := Text(if |municipios| > 0 then municipios[0] else "")];
        }
      }
    }

    /** `handleSubmit`: the data handed to `onSubmit`, exactly the current form data. */
    method Submit() returns (data: FormData)
      ensures data == formData
    {
      data := formData;
    }

    /** `loadScenario(key)`: a known key loads that scenario and its list; an unknown key does nothing. */
    method LoadScenario(key: string)
      modifies this
      ensures key in EXAMPLE_SCENARIOS ==> formData == EXAMPLE_SCENARIOS[key]
      ensures key in EXAMPLE_SCENARIOS ==> availableMunicipios == MunicipiosOf(EXAMPLE_SCENARIOS[key][DEPARTAMENTO])
      ensures key !in EXAMPLE_SCENARIOS ==> formData == old(formData) && availableMunicipios == old(availableMunicipios)
      ensures old(Valid()) ==> Valid()
      ensures key in EXAMPLE_SCENARIOS || old(ListMatches()) ==> ListMatches()
    {
      if key in EXAMPLE_SCENARIOS {
        var scenario := EXAMPLE_SCENARIOS[key];
        formData := scenario;
        availableMunicipios := MunicipiosOf(scenario[DEPARTAMENTO]);
      }
    }

    /** "Limpiar Formulario": the default data back, the list of municipalities left as it was. */
    method Reset(currentYear: real)
      modifies this
      ensures formData == DefaultInput(currentYear)
      ensures availableMunicipios == old(availableMunicipios)
      ensures Valid()
    {
      formData := DefaultInput(currentYear);
    }

    /** The reset as it evidently was meant: the default data with the default department's list. */
    method ResetRefreshing(currentYear: real)
      modifies this
      ensures formData == DefaultInput(currentYear)
      ensures Valid() && ListMatches()
    {
      formData := DefaultInput(currentYear);
      availableMunicipios := MunicipiosOf(formData[DEPARTAMENTO]);
    }
  }

  /**
   * Choosing Cundinamarca and then resetting leaves Cundinamarca's municipalities on offer
   * beside the default department Antioquia and its municipality Medellín, which is not among them.
   */
  method StaleListAfterReset(currentYear: real) returns (form: PropertyInputForm)
    ensures form.formData == DefaultInput(currentYear)
    ensures form.availableMunicipios == MUNICIPIOS_PRINCIPALES["CUNDINAMARCA"]
    ensures !form.ListMatches()
    ensures !Offered(form.formData[MUNICIPIO], form.availableMunicipios)
  {
    form := new PropertyInputForm(currentYear);
    form.HandleChange(DEPARTAMENTO, Text("CUNDINAMARCA"));
    form.Reset(currentYear);
    assert "MEDELLIN" !in MUNICIPIOS_PRINCIPALES["CUNDINAMARCA"];
  }

  /** With the corrected reset the same steps end with Antioquia's list again. */
  method ListAfterRefreshingReset(currentYear: real) returns (form: PropertyInputForm)
    ensures form.formData == DefaultInput(currentYear)
    ensures form.availableMunicipios == MUNICIPIOS_PRINCIPALES["ANTIOQUIA"]
    ensures Offered(form.formData[MUNICIPIO], form.availableMunicipios)
  {
    form := new PropertyInputForm(currentYear);
    form.HandleChange(DEPARTAMENTO, Text("CUNDINAMARCA"));
    form.ResetRefreshing(currentYear);
  }
}
