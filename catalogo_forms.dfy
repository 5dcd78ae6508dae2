/**
 * `catalogo/forms.py`: the two text validators and `ProductoForm`, its field
 * bounds and its cross-field stock rule.
 */
module CatalogoForms {
  import opened Wrappers
  import opened Text
  import opened Tables

  datatype CatalogoError =
    /** "Este campo solo puede contener números." */
    | OnlyDigits
    /** "Código EAN/UPC inválido. Debe tener 8, 12 o 13 dígitos." */
    | BadEanUpc

  /**
   * `validar_solo_numeros`: `re.match(r'^\d+$', value)`. As with any `$`, one
   * final newline after the digits is tolerated.
   */
  function ValidarSoloNumeros(value: string): (r: Outcome<CatalogoError>)
    ensures r.Fail? ==> r.error == OnlyDigits
    ensures r.Pass? <==>
      var body := if |value| > 0 && value[|value| - 1] == '\n' then value[..|value| - 1] else value;
      |body| > 0 && AllDigits(body)
  {
    if AnchoredPlus(value, IsDigit) then Pass else Fail(OnlyDigits)
  }

  /** `validar_solo_numeros` accepts a non-empty run of digits and refuses the empty string. */
  lemma SoloNumerosExamples()
    ensures ValidarSoloNumeros("0042").Pass?
    ensures ValidarSoloNumeros("").Fail?
    ensures ValidarSoloNumeros("12a").Fail?
  {
    assert !IsDigit('a');
  }

  /** The lengths `^\d{8}$|^\d{12,13}$` allows. */
  predicate EanLength(n: nat) { n == 8 || n == 12 || n == 13 }

  /**
   * `validar_ean_upc`: an empty value passes; otherwise the stripped value
   * must be exactly 8, 12 or 13 digits. The stripped value is returned.
   */
  function ValidarEanUpc(value: string): (r: Result<string, CatalogoError>)
    ensures value == [] ==> r == Ok([])
    ensures value != [] ==> (r.Ok? <==> EanLength(|Strip(value)|) && AllDigits(Strip(value)))
    ensures value != [] && r.Ok? ==> r.value == Strip(value)
    ensures r.Err? ==> r.error == BadEanUpc
  {
    if value == [] then Ok(value)
    else
      var v := Strip(value);
      if EanLength(|v|) && AllDigits(v) then Ok(v) else Err(BadEanUpc)
  }

  /** Nine to eleven digits are refused, as is a code with a letter in it. */
  lemma EanUpcLengthGap(value: string)
    requires 9 <= |Strip(value)| <= 11 || 14 <= |Strip(value)|
    ensures value != [] ==> ValidarEanUpc(value).Err?
  {
  }

  /** `UOM_OPCIONES`. */
  const UomOpciones: set<string> := {"UN", "CAJA", "PACK", "KG", "G", "LTS"}

  /** A decimal with two places, held as a whole number of hundredths. */
  type Hundredths = int

  /** `factor_conversion`: `max_digits=10` with two places leaves eight whole digits. */
  const FactorBound: int := 10_000_000_000

  type CategoryId = nat

  /** A number field as posted: left blank, not a number of the field's kind, or a number. */
  datatype NumberInput = Blank | Malformed | Given(n: int)

  /** The posted product. `factorConversion` is counted in hundredths. */
  datatype ProductPost = ProductPost(
    sku: string,
    eanUpc: string,
    nombre: string,
    descripcion: string,
    marca: string,
    modelo: string,
    uomCompra: string,
    uomVenta: string,
    factorConversion: NumberInput,
    impuestoIva: NumberInput,
    stockMinimo: NumberInput,
    stockMaximo: NumberInput,
    puntoReorden: NumberInput,
    perishable: bool,
    controlPorLote: bool,
    controlPorSerie: bool,
    categoria: Option<CategoryId>,
    fichaTecnicaUrl: string)

  datatype ProductField =
    | Sku | EanUpc | Nombre | Descripcion | Marca | Modelo | UomCompra | UomVenta
    | FactorConversion | ImpuestoIva | StockMinimo | StockMaximo | PuntoReorden
    | Categoria | FichaTecnicaUrl

  const AllProductFields: set<ProductField> :=
    {Sku, EanUpc, Nombre, Descripcion, Marca, Modelo, UomCompra, UomVenta,
     FactorConversion, ImpuestoIva, StockMinimo, StockMaximo, PuntoReorden,
     Categoria, FichaTecnicaUrl}

  /** An `IntegerField` or `DecimalField` with `required`, `min_value` and an optional upper bound. */
  predicate NumberFieldOk(value: NumberInput, required: bool, low: int, high: Option<int>) {
    match value
    case Blank => !required
    case Malformed => false
    case Given(n) => low <= n && (high.None? || n <= high.value)
  }

  /** The field's own checks, as declared on `ProductoForm`. */
  predicate FieldOk(p: ProductPost, f: ProductField) {
    match f
    case Sku => TextFieldOk(p.sku, true, 4, 16)
    case EanUpc => Strip(p.eanUpc) == [] || ValidarEanUpc(Strip(p.eanUpc)).Ok?
    case Nombre => TextFieldOk(p.nombre, true, 0, 100)
    case Descripcion => TextFieldOk(p.descripcion, true, 10, 4000)
    case Marca => TextFieldOk(p.marca, false, 0, 50)
    case Modelo => TextFieldOk(p.modelo, false, 0, 50)
    case UomCompra => p.uomCompra in UomOpciones
    case UomVenta => p.uomVenta in UomOpciones
    case FactorConversion => NumberFieldOk(p.factorConversion, true, 100, Some(FactorBound - 1))
    case ImpuestoIva => NumberFieldOk(p.impuestoIva, true, 0, Some(100))
    case StockMinimo => NumberFieldOk(p.stockMinimo, true, 0, None)
    case StockMaximo => NumberFieldOk(p.stockMaximo, false, 0, None)
    case PuntoReorden => NumberFieldOk(p.puntoReorden, false, 0, None)
    case Categoria => p.categoria.Some?
    case FichaTecnicaUrl => TextFieldOk(p.fichaTecnicaUrl, false, 0, 200)
  }

  lemma EveryProductField(f: ProductField)
    ensures f in AllProductFields
  {
  }

  /** The fields whose own checks fail; each field's bounds, in the input's terms. */
  function FieldErrors(p: ProductPost): (r: set<ProductField>)
    ensures forall f :: f in r <==> !FieldOk(p, f)
  {
    assert forall f :: f in AllProductFields by {
      forall f: ProductField ensures f in AllProductFields {
        EveryProductField(f);
      }
    }
    set f | f in AllProductFields && !FieldOk(p, f)
  }

  /** No field error means every field's own check holds. */
  lemma NoFieldErrorsAllOk(p: ProductPost)
    requires FieldErrors(p) == {}
    ensures FieldOk(p, Sku) && FieldOk(p, Descripcion) && FieldOk(p, Categoria) && FieldOk(p, EanUpc)
    ensures FieldOk(p, ImpuestoIva) && FieldOk(p, FactorConversion) && FieldOk(p, StockMinimo)
    ensures FieldOk(p, StockMaximo) && FieldOk(p, PuntoReorden)
  {
    assert forall f :: f !in FieldErrors(p);
  }

  /** The text bounds, in the input's own terms, when no field check fails. */
  lemma AcceptedTextBounds(p: ProductPost)
    requires FieldOk(p, Sku) && FieldOk(p, Descripcion) && FieldOk(p, Categoria)
    ensures 4 <= |Strip(p.sku)| <= 16
    ensures 10 <= |Strip(p.descripcion)| <= 4000
    ensures p.categoria.Some?
  {
  }

  /** An accepted EAN/UPC is blank or a code of a valid length. */
  lemma AcceptedEanBounds(p: ProductPost)
    requires FieldOk(p, EanUpc)
    ensures Strip(p.eanUpc) == [] || (EanLength(|Strip(p.eanUpc)|) && AllDigits(Strip(p.eanUpc)))
  {
    StripIdempotent(p.eanUpc);
  }

  /** The number bounds, when no field check fails. */
  lemma AcceptedNumberBounds(p: ProductPost)
    requires FieldOk(p, ImpuestoIva) && FieldOk(p, FactorConversion) && FieldOk(p, StockMinimo)
    requires FieldOk(p, StockMaximo) && FieldOk(p, PuntoReorden)
    ensures p.impuestoIva.Given? && 0 <= p.impuestoIva.n <= 100
    ensures p.factorConversion.Given? && 100 <= p.factorConversion.n < FactorBound
    ensures p.stockMinimo.Given? && p.stockMinimo.n >= 0
    ensures !p.stockMaximo.Malformed? && !p.puntoReorden.Malformed?
  {
  }

  /**
   * The upper end of the range `integer_field_range` gives a
   * `PositiveIntegerField` in Django's base database operations.
   */
  const PositiveIntegerMax: int := 2_147_483_647

  /** The three stock columns, `PositiveIntegerField`s of the model. */
  const StockFields: set<ProductField> := {StockMinimo, StockMaximo, PuntoReorden}

  /** The posted value of a stock column. */
  function StockInput(p: ProductPost, f: ProductField): NumberInput
    requires f in StockFields
  {
    match f
    case StockMinimo => p.stockMinimo
    case StockMaximo => p.stockMaximo
    case PuntoReorden => p.puntoReorden
  }

  /**
   * The stock columns the model's range validators refuse. `_post_clean`
   * runs them, after `clean`, on the fields whose own checks passed.
   */
  function RangeErrors(p: ProductPost): (r: set<ProductField>)
    ensures forall f :: f in r <==> f in StockFields && FieldOk(p, f)
                                    && StockInput(p, f).Given? && StockInput(p, f).n > PositiveIntegerMax
    ensures r <= StockFields
  {
    set f | f in StockFields && FieldOk(p, f) && StockInput(p, f).Given? && StockInput(p, f).n > PositiveIntegerMax
  }

  /** 3 000 000 000 passes the form's own check on `stock_minimo` but not the column's range. */
  lemma HugeStockOutOfRange(p: ProductPost)
    requires p.stockMinimo == Given(3_000_000_000)
    ensures FieldOk(p, StockMinimo) && StockMinimo in RangeErrors(p)
  {
  }

  /** What `cleaned_data.get` gives for a number field: nothing when blank or when its own check failed. */
  function Surviving(value: NumberInput, field: ProductField, errors: set<ProductField>): (r: Option<int>)
    ensures r.Some? <==> field !in errors && value.Given?
    ensures r.Some? ==> r.value == value.n
  {
    if field !in errors && value.Given? then Some(value.n) else None
  }

  datatype StockError =
    /** "El stock máximo no puede ser menor al stock mínimo." */
    | MaxBelowMin
    /** "El punto de reorden no puede ser mayor al stock máximo." */
    | ReorderAboveMax

  /** Python truthiness of an optional integer: present and not zero. */
  predicate Truthy(n: Option<int>) { n.Some? && n.value != 0 }

  /**
   * `ProductoForm.clean` on the cleaned stock fields (absent when missing or
   * when their own check failed). The min/max test runs first and raises, so
   * the reorder test then adds nothing.
   */
  function ProductoClean(stockMin: Option<int>, stockMax: Option<int>, reorden: Option<int>): (r: Option<StockError>)
    ensures r == Some(MaxBelowMin) <==> stockMin.Some? && stockMax.Some? && stockMax.value < stockMin.value
    ensures r == Some(ReorderAboveMax) <==>
      !(stockMin.Some? && stockMax.Some? && stockMax.value < stockMin.value)
      && Truthy(reorden) && Truthy(stockMax) && reorden.value > stockMax.value
    ensures r.None? ==> (stockMin.Some? && stockMax.Some? ==> stockMin.value <= stockMax.value)
    ensures r.None? ==> (Truthy(reorden) && Truthy(stockMax) ==> reorden.value <= stockMax.value)
  {
    if stockMax.Some? && stockMin.Some? && stockMax.value < stockMin.value then Some(MaxBelowMin)
    else if Truthy(reorden) && Truthy(stockMax) && reorden.value > stockMax.value then Some(ReorderAboveMax)
    else None
  }

  /** Equal minimum and maximum pass; a maximum of zero or none skips the reorder test. */
  lemma StockRuleEdges(n: int, reorden: int)
    ensures ProductoClean(Some(n), Some(n), None).None?
    ensures ProductoClean(Some(0), Some(0), Some(reorden)).None?
    ensures ProductoClean(Some(0), None, Some(reorden)).None?
  {
  }

  datatype ProductErrors = ProductErrors(fields: set<ProductField>, form: Option<StockError>)

  /** A saved `Producto`, as the form's cleaned data gives it. */
  datatype ProductFields = ProductFields(
    sku: string,
    eanUpc: string,
    nombre: string,
    descripcion: string,
    marca: string,
    modelo: string,
    uomCompra: string,
    uomVenta: string,
    factorConversion: Hundredths,
    impuestoIva: int,
    stockMinimo: int,
    stockMaximo: Option<int>,
    puntoReorden: Option<int>,
    perishable: bool,
    controlPorLote: bool,
    controlPorSerie: bool,
    categoria: CategoryId,
    fichaTecnicaUrl: string)

  /** What every accepted product satisfies. */
  predicate WithinBounds(f: ProductFields) {
    && 4 <= |f.sku| <= 16
    && (f.eanUpc == [] || (EanLength(|f.eanUpc|) && AllDigits(f.eanUpc)))
    && 10 <= |f.descripcion| <= 4000
    && 0 <= f.impuestoIva <= 100
    && f.factorConversion >= 100
    && 0 <= f.stockMinimo <= PositiveIntegerMax
    && (f.stockMaximo.Some? ==> 0 <= f.stockMaximo.value <= PositiveIntegerMax)
    && (f.puntoReorden.Some? ==> 0 <= f.puntoReorden.value <= PositiveIntegerMax)
    && (f.stockMaximo.Some? ==> f.stockMinimo <= f.stockMaximo.value)
    && (Truthy(f.puntoReorden) && Truthy(f.stockMaximo) ==> f.puntoReorden.value <= f.stockMaximo.value)
  }

  /** An optional number field's cleaned value. */
  function OptionalValue(value: NumberInput): Option<int> {
    if value.Given? then Some(value.n) else None
  }

  /**
   * `form.is_valid()`: the field checks, then `clean` on the survivors, then
   * the model's range validators. An accepted product satisfies every bound
   * and the stock rule, and holds the stripped text and the posted numbers.
   */
  function ValidateProduct(p: ProductPost): (r: Result<ProductFields, ProductErrors>)
    ensures r.Ok? <==> FieldErrors(p) == {} && RangeErrors(p) == {}
                       && ProductoClean(OptionalValue(p.stockMinimo), OptionalValue(p.stockMaximo),
                                        OptionalValue(p.puntoReorden)).None?
    ensures r.Ok? ==> WithinBounds(r.value)
    ensures r.Ok? ==> r.value.sku == Strip(p.sku) && r.value.nombre == Strip(p.nombre)
                      && r.value.eanUpc == Strip(p.eanUpc)
                      && p.stockMinimo == Given(r.value.stockMinimo)
                      && r.value.stockMaximo == OptionalValue(p.stockMaximo)
                      && r.value.puntoReorden == OptionalValue(p.puntoReorden)
                      && p.categoria == Some(r.value.categoria)
    ensures r.Ok? ==> r.value.descripcion == Strip(p.descripcion) && r.value.marca == Strip(p.marca)
                      && r.value.modelo == Strip(p.modelo) && r.value.fichaTecnicaUrl == Strip(p.fichaTecnicaUrl)
                      && r.value.uomCompra == p.uomCompra && r.value.uomVenta == p.uomVenta
                      && p.factorConversion == Given(r.value.factorConversion)
                      && p.impuestoIva == Given(r.value.impuestoIva)
                      && r.value.perishable == p.perishable && r.value.controlPorLote == p.controlPorLote
                      && r.value.controlPorSerie == p.controlPorSerie
    ensures r.Err? ==> r.error.fields == FieldErrors(p) + RangeErrors(p)
    ensures r.Err? ==> r.error.form == ProductoClean(Surviving(p.stockMinimo, StockMinimo, FieldErrors(p)),
                                                     Surviving(p.stockMaximo, StockMaximo, FieldErrors(p)),
                                                     Surviving(p.puntoReorden, PuntoReorden, FieldErrors(p)))
    ensures r.Err? && FieldErrors(p) == {} && RangeErrors(p) == {} ==> r.error.form.Some?
  {
    var errors := FieldErrors(p);
    var formError := ProductoClean(Surviving(p.stockMinimo, StockMinimo, errors),
                                   Surviving(p.stockMaximo, StockMaximo, errors),
                                   Surviving(p.puntoReorden, PuntoReorden, errors));
    var rangeErrors := RangeErrors(p);
    if errors == {} && rangeErrors == {} && formError.None? then
      assert StockMinimo !in rangeErrors && StockMaximo !in rangeErrors && PuntoReorden !in rangeErrors;
      NoFieldErrorsAllOk(p);
      AcceptedTextBounds(p);
      AcceptedEanBounds(p);
      AcceptedNumberBounds(p);
      Ok(ProductFields(Strip(p.sku), Strip(p.eanUpc), Strip(p.nombre), Strip(p.descripcion),
                       Strip(p.marca), Strip(p.modelo), p.uomCompra, p.uomVenta,
                       p.factorConversion.n, p.impuestoIva.n, p.stockMinimo.n,
                       OptionalValue(p.stockMaximo), OptionalValue(p.puntoReorden),
                       p.perishable, p.controlPorLote, p.controlPorSerie, p.categoria.value,
                       Strip(p.fichaTecnicaUrl)))
    else
      Err(ProductErrors(errors + rangeErrors, formError))
  }

  /** The model's `unique=True` columns that `validate_unique` finds already held by another row. */
  datatype UniqueClash = SkuTaken | EanTaken

  /**
   * `validate_unique` as the form runs it after `clean`: `sku` and `ean_upc`
   * are looked up among the other rows. The blank EAN the form produces is
   * the string `""`, which is a value like any other, so it is looked up too.
   */
  function ValidateUniqueAsWritten(f: ProductFields, skus: seq<Keyed<string>>, eans: seq<Keyed<string>>,
                                   editing: Option<nat>): (r: set<UniqueClash>)
    ensures SkuTaken in r <==> TakenByOther(skus, f.sku, editing)
    ensures EanTaken in r <==> TakenByOther(eans, f.eanUpc, editing)
  {
    (if TakenByOther(skus, f.sku, editing) then {SkuTaken} else {})
    + (if TakenByOther(eans, f.eanUpc, editing) then {EanTaken} else {})
  }

  /**
   * The uniqueness check with a blank EAN stored as `NULL`, as the column's
   * `null=True` intends: a product without a code never clashes.
   */
  function ValidateUnique(f: ProductFields, skus: seq<Keyed<string>>, eans: seq<Keyed<string>>,
                          editing: Option<nat>): (r: set<UniqueClash>)
    ensures SkuTaken in r <==> TakenByOther(skus, f.sku, editing)
    ensures EanTaken in r <==> f.eanUpc != [] && TakenByOther(eans, f.eanUpc, editing)
    ensures f.eanUpc != [] ==> r == ValidateUniqueAsWritten(f, skus, eans, editing)
  {
    (if TakenByOther(skus, f.sku, editing) then {SkuTaken} else {})
    + (if f.eanUpc != [] && TakenByOther(eans, f.eanUpc, editing) then {EanTaken} else {})
  }

  /**
   * Once one product without a code exists, the check as written refuses
   * every further product without one; the corrected check accepts it.
   */
  lemma SecondBlankEanRefused(f: ProductFields, first: nat)
    requires f.eanUpc == []
    ensures EanTaken in ValidateUniqueAsWritten(f, [], [Keyed(first, [])], None)
    ensures EanTaken !in ValidateUnique(f, [], [Keyed(first, [])], None)
  {
    assert [Keyed(first, [])][0].key == f.eanUpc;
  }
}
