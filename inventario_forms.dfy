/**
 * `MovimientoInventarioForm`: the field checks Django runs on a posted
 * inventory movement, `clean_cantidad` and the whole-form `clean`.
 */
module InventarioForms {
  import opened Wrappers
  import opened Text

  /** `MovimientoInventario.TIPO_MOVIMIENTO`. */
  datatype Kind = Ingreso | Salida | Ajuste | Devolucion | Transferencia

  type ProductId = nat
  type SupplierId = nat
  type WarehouseId = nat

  /** A calendar date as a day number; only the order of dates matters here. */
  type Date = int

  /**
   * `cantidad` is a `Decimal` with three decimal places; it is held as the
   * whole number of thousandths, so 2.5 is 2500.
   */
  type Thousandths = int

  const Scale: int := 1000

  /** `max_digits=18` with three decimal places leaves fifteen whole digits. */
  const QuantityBound: int := 1_000_000_000_000_000_000

  /** `lote` and `serie` are `CharField(max_length=50)`. */
  const CodeMaxLength: nat := 50

  /** Python's `int(Decimal)`: drops the fraction, rounding toward zero. */
  function TruncateToUnits(q: Thousandths): (n: int)
    ensures -Scale < q - n * Scale < Scale
    ensures q >= 0 ==> 0 <= q - n * Scale
    ensures q <= 0 ==> q - n * Scale <= 0
  {
    if q >= 0 then q / Scale else -((-q) / Scale)
  }

  /** `cantidad != int(cantidad)` holds exactly when the quantity has a fraction. */
  lemma TruncationDetectsFraction(q: Thousandths)
    ensures (q != TruncateToUnits(q) * Scale) <==> q % Scale != 0
  {
    var n := TruncateToUnits(q);
    if q % Scale == 0 {
      assert q == (q / Scale) * Scale;
      if q < 0 {
        assert (-q) % Scale == 0 && -q == ((-q) / Scale) * Scale;
      }
    }
  }

  datatype QuantityError =
    /** "La cantidad debe ser un número entero (sin decimales)." */
    | NotWhole
    /** "La cantidad debe ser mayor a cero." */
    | NotPositive

  /**
   * `clean_cantidad`: a missing quantity is passed on; otherwise the
   * integrality test runs before the sign test, and an accepted quantity is
   * returned as its whole number of units.
   */
  function CleanCantidad(cantidad: Option<Thousandths>): (r: Result<Option<int>, QuantityError>)
    ensures cantidad.None? ==> r == Ok(None)
    ensures cantidad.Some? ==> (r.Ok? <==> cantidad.value % Scale == 0 && cantidad.value > 0)
    ensures cantidad.Some? && r.Ok? ==> r.value.Some? && r.value.value >= 1 && r.value.value * Scale == cantidad.value
    ensures cantidad.Some? && cantidad.value % Scale != 0 ==> r == Err(NotWhole)
    ensures cantidad.Some? && cantidad.value % Scale == 0 && cantidad.value <= 0 ==> r == Err(NotPositive)
  {
    match cantidad
    case None => Ok(None)
    case Some(q) =>
      TruncationDetectsFraction(q);
      if q != TruncateToUnits(q) * Scale then Err(NotWhole)
      else if q <= 0 then Err(NotPositive)
      else Ok(Some(TruncateToUnits(q)))
  }

  /** 2.5 and -0.5 are refused as fractional, never as "not greater than zero". */
  lemma FractionReportedFirst()
    ensures CleanCantidad(Some(2500)) == Err(NotWhole)
    ensures CleanCantidad(Some(-500)) == Err(NotWhole)
    ensures CleanCantidad(Some(0)) == Err(NotPositive)
    ensures CleanCantidad(Some(-3000)) == Err(NotPositive)
    ensures CleanCantidad(Some(7000)) == Ok(Some(7))
  {
    assert CleanCantidad(Some(2500)).Err?;
    assert CleanCantidad(Some(-500)).Err?;
  }

  datatype FormError =
    /** "La fecha de vencimiento no puede ser menor a la fecha actual." */
    | ExpiryInPast
    /** "Para una transferencia debes indicar bodega origen y destino." */
    | TransferNeedsBoth
    /** "La bodega origen y destino no pueden ser la misma." */
    | TransferSameWarehouse
    /** "Para un ingreso debes indicar la bodega destino." */
    | IngresoNeedsDestination
    /** "Para una salida/devolucion debes indicar la bodega origen." */
    | NeedsOrigin(kind: Kind)

  /** The per-kind warehouse chain of `clean`; the first failing test wins. */
  function WarehouseRule(tipo: Option<Kind>, origen: Option<WarehouseId>, destino: Option<WarehouseId>): (r: Option<FormError>)
    ensures tipo == Some(Transferencia) && (origen.None? || destino.None?) ==> r == Some(TransferNeedsBoth)
    ensures tipo == Some(Transferencia) && origen.Some? && destino.Some? ==> (r.Some? <==> origen == destino)
    ensures tipo == Some(Ingreso) ==> (r.Some? <==> destino.None?)
    ensures tipo == Some(Salida) || tipo == Some(Devolucion) ==> (r.Some? <==> origen.None?)
    ensures tipo == Some(Ajuste) || tipo.None? ==> r.None?
    ensures tipo == Some(Transferencia) && origen.Some? && destino.Some? && r.Some? ==> r == Some(TransferSameWarehouse)
    ensures tipo == Some(Ingreso) && r.Some? ==> r == Some(IngresoNeedsDestination)
    ensures (tipo == Some(Salida) || tipo == Some(Devolucion)) && r.Some? ==> r == Some(NeedsOrigin(tipo.value))
  {
    match tipo
    case Some(Transferencia) =>
      if origen.None? || destino.None? then Some(TransferNeedsBoth)
      else if origen == destino then Some(TransferSameWarehouse)
      else None
    case Some(Ingreso) =>
      if destino.None? then Some(IngresoNeedsDestination) else None
    case Some(Salida) =>
      if origen.None? then Some(NeedsOrigin(Salida)) else None
    case Some(Devolucion) =>
      if origen.None? then Some(NeedsOrigin(Devolucion)) else None
    case _ => None
  }

  /** What a kind demands of the two warehouse fields, stated as a table. */
  datatype Requirement = Requirement(origin: bool, destination: bool, distinct: bool)

  function RequirementOf(kind: Kind): Requirement {
    match kind
    case Ingreso => Requirement(false, true, false)
    case Salida => Requirement(true, false, false)
    case Devolucion => Requirement(true, false, false)
    case Transferencia => Requirement(true, true, true)
    case Ajuste => Requirement(false, false, false)
  }

  predicate Meets(req: Requirement, origen: Option<WarehouseId>, destino: Option<WarehouseId>) {
    && (req.origin ==> origen.Some?)
    && (req.destination ==> destino.Some?)
    && (req.distinct ==> origen != destino)
  }

  /** The warehouse chain passes exactly when the kind's requirement is met. */
  lemma WarehouseRuleMatchesTable(kind: Kind, origen: Option<WarehouseId>, destino: Option<WarehouseId>)
    ensures WarehouseRule(Some(kind), origen, destino).None? <==> Meets(RequirementOf(kind), origen, destino)
  {
  }

  /**
   * `clean`: a past expiry date is refused first, for every kind; otherwise
   * the warehouse chain decides. It raises at most one whole-form error.
   */
  function Clean(tipo: Option<Kind>, origen: Option<WarehouseId>, destino: Option<WarehouseId>,
                 fechaVencimiento: Option<Date>, today: Date): (r: Option<FormError>)
    ensures fechaVencimiento.Some? && fechaVencimiento.value < today ==> r == Some(ExpiryInPast)
    ensures (fechaVencimiento.None? || fechaVencimiento.value >= today) ==> r == WarehouseRule(tipo, origen, destino)
    ensures r != Some(ExpiryInPast) ==> fechaVencimiento.None? || fechaVencimiento.value >= today
  {
    if fechaVencimiento.Some? && fechaVencimiento.value < today then Some(ExpiryInPast)
    else WarehouseRule(tipo, origen, destino)
  }

  /** An ADJUSTMENT passes `clean` whatever its warehouses, given a current expiry. */
  lemma AjusteHasNoWarehouseRule(origen: Option<WarehouseId>, destino: Option<WarehouseId>, fecha: Option<Date>, today: Date)
    requires fecha.None? || fecha.value >= today
    ensures Clean(Some(Ajuste), origen, destino, fecha, today).None?
  {
  }

  /** The fields of the posted form, as Django's field types parse them. */
  datatype MovementPost = MovementPost(
    tipo: Option<Kind>,
    producto: Option<ProductId>,
    proveedor: Option<SupplierId>,
    bodegaOrigen: Option<WarehouseId>,
    bodegaDestino: Option<WarehouseId>,
    cantidad: Option<Thousandths>,
    lote: string,
    serie: string,
    fechaVencimiento: Option<Date>,
    observaciones: string)

  datatype Field = Tipo | Producto | Cantidad | Lote | Serie

  datatype FieldError =
    | Required(field: Field)
    | TooLong(field: Field)
    | TooManyDigits
    | BadQuantity(error: QuantityError)

  /** The errors `is_valid()` reports: field errors and at most one form error. */
  datatype Errors = Errors(fields: seq<FieldError>, form: Option<FormError>)

  /** The validated movement that `form.save(commit=False)` builds. */
  datatype MovementFields = MovementFields(
    tipo: Kind,
    producto: ProductId,
    proveedor: Option<SupplierId>,
    bodegaOrigen: Option<WarehouseId>,
    bodegaDestino: Option<WarehouseId>,
    cantidad: Thousandths,
    lote: Option<string>,
    serie: Option<string>,
    fechaVencimiento: Option<Date>,
    observaciones: Option<string>)

  /** A nullable `CharField`: stripped, and `None` when nothing is left. */
  function CleanText(raw: string): (r: Option<string>)
    ensures r.None? <==> Strip(raw) == []
    ensures r.Some? ==> r.value == Strip(raw)
  {
    var t := Strip(raw);
    if t == [] then None else Some(t)
  }

  function CodeErrors(raw: string, field: Field): (r: seq<FieldError>)
    ensures r == [] <==> |Strip(raw)| <= CodeMaxLength
  {
    if |Strip(raw)| > CodeMaxLength then [TooLong(field)] else []
  }

  /** The `cantidad` field: required, at most eighteen digits, then `clean_cantidad`. */
  function QuantityErrors(cantidad: Option<Thousandths>): (r: seq<FieldError>)
    ensures r == [] <==> cantidad.Some? && 0 < cantidad.value < QuantityBound && cantidad.value % Scale == 0
    ensures |r| <= 1
  {
    match cantidad
    case None => [Required(Cantidad)]
    case Some(q) =>
      if q <= -QuantityBound || q >= QuantityBound then [TooManyDigits]
      else
        match CleanCantidad(cantidad)
        case Err(e) => [BadQuantity(e)]
        case Ok(_) => []
  }

  /** Every field error of the posted form, in field order. */
  function FieldErrors(p: MovementPost): seq<FieldError> {
    (if p.tipo.None? then [Required(Tipo)] else [])
    + (if p.producto.None? then [Required(Producto)] else [])
    + QuantityErrors(p.cantidad)
    + CodeErrors(p.lote, Lote)
    + CodeErrors(p.serie, Serie)
  }

  /** No field error is reported exactly when every field's own check passes. */
  lemma NoFieldErrors(p: MovementPost)
    ensures FieldErrors(p) == [] <==>
      && p.tipo.Some? && p.producto.Some? && QuantityErrors(p.cantidad) == []
      && CodeErrors(p.lote, Lote) == [] && CodeErrors(p.serie, Serie) == []
  {
    var a := if p.tipo.None? then [Required(Tipo)] else [];
    var b := if p.producto.None? then [Required(Producto)] else [];
    assert FieldErrors(p) == a + b + QuantityErrors(p.cantidad) + CodeErrors(p.lote, Lote) + CodeErrors(p.serie, Serie);
  }

  /** With a kind chosen, `clean` passes exactly when the expiry is current and the kind's requirement is met. */
  lemma CleanPassesIff(p: MovementPost, today: Date)
    ensures p.tipo.Some? ==>
      (Clean(p.tipo, p.bodegaOrigen, p.bodegaDestino, p.fechaVencimiento, today).None? <==>
        (p.fechaVencimiento.None? || p.fechaVencimiento.value >= today)
        && Meets(RequirementOf(p.tipo.value), p.bodegaOrigen, p.bodegaDestino))
  {
    if p.tipo.Some? {
      WarehouseRuleMatchesTable(p.tipo.value, p.bodegaOrigen, p.bodegaDestino);
    }
  }

  /**
   * `form.is_valid()` with the form's cleaned fields: field validation, then
   * `clean` on whatever survived it. The form is valid when neither reported.
   */
  function Validate(p: MovementPost, today: Date): (r: Result<MovementFields, Errors>)
    ensures r.Ok? <==>
      && p.tipo.Some? && p.producto.Some? && p.cantidad.Some?
      && 0 < p.cantidad.value < QuantityBound && p.cantidad.value % Scale == 0
      && |Strip(p.lote)| <= CodeMaxLength && |Strip(p.serie)| <= CodeMaxLength
      && (p.fechaVencimiento.None? || p.fechaVencimiento.value >= today)
      && Meets(RequirementOf(p.tipo.value), p.bodegaOrigen, p.bodegaDestino)
    ensures r.Ok? ==>
      && r.value.tipo == p.tipo.value && r.value.producto == p.producto.value
      && r.value.proveedor == p.proveedor
      && r.value.bodegaOrigen == p.bodegaOrigen && r.value.bodegaDestino == p.bodegaDestino
      && r.value.cantidad == p.cantidad.value
      && r.value.lote == CleanText(p.lote) && r.value.serie == CleanText(p.serie)
      && r.value.fechaVencimiento == p.fechaVencimiento
      && r.value.observaciones == CleanText(p.observaciones)
    ensures r.Err? && p.fechaVencimiento.Some? && p.fechaVencimiento.value < today ==> r.error.form == Some(ExpiryInPast)
  {
    NoFieldErrors(p);
    var fieldErrors := FieldErrors(p);
    CleanPassesIff(p, today);
    var formError := Clean(p.tipo, p.bodegaOrigen, p.bodegaDestino, p.fechaVencimiento, today);
    if fieldErrors == [] && formError.None? then
      Ok(MovementFields(p.tipo.value, p.producto.value, p.proveedor, p.bodegaOrigen, p.bodegaDestino,
                        p.cantidad.value, CleanText(p.lote), CleanText(p.serie), p.fechaVencimiento,
                        CleanText(p.observaciones)))
    else
      Err(Errors(fieldErrors, formError))
  }

  /** A valid movement always carries a positive whole quantity. */
  lemma ValidQuantityIsWholeAndPositive(p: MovementPost, today: Date)
    requires Validate(p, today).Ok?
    ensures Validate(p, today).value.cantidad >= Scale
    ensures CleanCantidad(Some(Validate(p, today).value.cantidad)).Ok?
  {
  }
}
