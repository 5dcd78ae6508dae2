/**
 * `proveedores/forms.py`: the four supplier validators, the uniqueness
 * checks of `ProveedorForm`, and the division choices its constructor sets
 * up from the chosen country.
 */
module ProveedoresForms {
  import opened Wrappers
  import opened Text
  import opened Tables
  import opened Ordering

  datatype RutError =
    /** "El RUT/NIF debe tener entre 8 y 20 caracteres." */
    | RutLength
    /** "Formato inválido. Solo números, puntos y guiones." */
    | RutFormat

  /** The class `[0-9kK\.\-]`. */
  predicate IsRutChar(c: char) { IsDigit(c) || c == 'k' || c == 'K' || c == '.' || c == '-' }

  /**
   * `validar_rut_nif`: the length is measured on the stripped value and
   * tested first; the character test runs on the value as given.
   */
  function ValidarRutNif(value: string): (r: Outcome<RutError>)
    ensures r == Fail(RutLength) <==> !(8 <= |Strip(value)| <= 20)
    ensures r == Fail(RutFormat) <==> 8 <= |Strip(value)| <= 20 && !AnchoredPlus(value, IsRutChar)
    ensures r == Pass <==> 8 <= |Strip(value)| <= 20 && AnchoredPlus(value, IsRutChar)
  {
    if |Strip(value)| < 8 || |Strip(value)| > 20 then Fail(RutLength)
    else if !AnchoredPlus(value, IsRutChar) then Fail(RutFormat)
    else Pass
  }

  /**
   * Any value shorter than eight characters is refused for its length,
   * whatever characters it holds: stripping never lengthens it.
   */
  lemma ShortRutRefusedForLength(value: string)
    requires |value| < 8
    ensures ValidarRutNif(value) == Fail(RutLength)
  {
    var i :| 0 <= i <= |value| && OccursAt(Strip(value), value, i);
  }

  /** A stripped value never ends in a newline, so on it `^P+$` means "non-empty and all P". */
  lemma AnchoredOnStripped(value: string, p: char -> bool)
    ensures AnchoredPlus(Strip(value), p) <==> |Strip(value)| > 0 && forall i :: 0 <= i < |Strip(value)| ==> p(Strip(value)[i])
  {
    var s := Strip(value);
    if |s| > 1 {
      assert IsSpace('\n');
      assert s[|s| - 1] != '\n';
    }
  }

  datatype PhoneError =
    /** "El teléfono solo debe contener números." */
    | PhoneNotDigits
    /** "El teléfono debe tener entre 9 y 15 dígitos." */
    | PhoneLength

  /** `validar_telefono`: empty passes; the digit test comes before the length test. */
  function ValidarTelefono(value: string): (r: Outcome<PhoneError>)
    ensures value == [] ==> r == Pass
    ensures value != [] && !AnchoredPlus(value, IsDigit) ==> r == Fail(PhoneNotDigits)
    ensures r == Fail(PhoneLength) <==> value != [] && AnchoredPlus(value, IsDigit) && !(9 <= |value| <= 15)
    ensures r == Pass <==> value == [] || (AnchoredPlus(value, IsDigit) && 9 <= |value| <= 15)
  {
    if value == [] then Pass
    else if !AnchoredPlus(value, IsDigit) then Fail(PhoneNotDigits)
    else if |value| < 9 || |value| > 15 then Fail(PhoneLength)
    else Pass
  }

  datatype NameError =
    /** "Debe tener mínimo 3 caracteres." */
    | NameTooShort
    /** "Ha excedido el máximo permitido (255 caracteres)." */
    | NameTooLong

  /** `validar_nombre`, on the stripped length. */
  function ValidarNombre(value: string): (r: Outcome<NameError>)
    ensures r == Pass <==> 3 <= |Strip(value)| <= 255
    ensures r == Fail(NameTooShort) <==> |Strip(value)| < 3
    ensures r == Fail(NameTooLong) <==> |Strip(value)| > 255
  {
    if |Strip(value)| < 3 then Fail(NameTooShort)
    else if |Strip(value)| > 255 then Fail(NameTooLong)
    else Pass
  }

  datatype CurrencyError =
    /** "Debe tener exactamente 3 letras (ej: CLP, USD)." */
    | CurrencyLength
    /** "Solo debe contener letras (ej: CLP)." */
    | CurrencyNotLetters

  /** `validar_moneda`: exactly three characters, then all of them letters. */
  function ValidarMoneda(value: string): (r: Outcome<CurrencyError>)
    ensures r == Pass <==> |value| == 3 && forall i :: 0 <= i < 3 ==> IsAlpha(value[i])
    ensures r == Fail(CurrencyLength) <==> |value| != 3
  {
    if |value| != 3 then Fail(CurrencyLength)
    else if !IsAlphaString(value) then Fail(CurrencyNotLetters)
    else Pass
  }

  /** The currency codes of `MONEDAS`. */
  const Monedas: seq<string> := ["CLP", "USD", "EUR", "ARS", "BRL", "COP", "PEN", "MXN"]

  /** Every code the currency select offers would pass `validar_moneda`. */
  lemma MonedasPassValidator()
    ensures forall i :: 0 <= i < |Monedas| ==> ValidarMoneda(Monedas[i]) == Pass
  {
  }

  /** Why a posted `rut_nif` is refused. */
  datatype RutFieldError = RutRequired | RutInvalid(error: RutError) | RutTaken

  /**
   * The `rut_nif` field: `CharField` strips and requires a value,
   * `validar_rut_nif` runs on the stripped text, and `clean_rut_nif` refuses
   * a value another supplier holds. `editing` is the instance's key, if it
   * has one.
   */
  function CleanRutNif(raw: string, rows: seq<Keyed<string>>, editing: Option<nat>): (r: Result<string, RutFieldError>)
    ensures r.Ok? <==> 8 <= |Strip(raw)| <= 20 && (forall i :: 0 <= i < |Strip(raw)| ==> IsRutChar(Strip(raw)[i]))
                       && !TakenByOther(rows, Strip(raw), editing)
    ensures r.Ok? ==> r.value == Strip(raw)
    ensures r == Err(RutTaken) <==> ValidarRutNif(Strip(raw)) == Pass && TakenByOther(rows, Strip(raw), editing)
  {
    var v := Strip(raw);
    AnchoredOnStripped(raw, IsRutChar);
    StripIdempotent(raw);
    if v == [] then Err(RutRequired)
    else match ValidarRutNif(v)
      case Fail(e) => Err(RutInvalid(e))
      case Pass => if TakenByOther(rows, v, editing) then Err(RutTaken) else Ok(v)
  }

  /** `clean_email`, on the address `EmailField` accepted: refused when another supplier holds it. */
  function CleanEmail(email: string, rows: seq<Keyed<string>>, editing: Option<nat>): (r: Result<string, ()>)
    ensures r.Ok? <==> !TakenByOther(rows, email, editing)
    ensures r.Ok? ==> r.value == email
  {
    if TakenByOther(rows, email, editing) then Err(()) else Ok(email)
  }

  /** Re-saving a supplier with its own address and RUT passes the uniqueness checks. */
  lemma ResaveOwnValues(emails: seq<Keyed<string>>, ruts: seq<Keyed<string>>, id: nat, email: string, rut: string)
    requires forall i :: 0 <= i < |emails| && emails[i].key == email ==> emails[i].id == id
    requires forall i :: 0 <= i < |ruts| && ruts[i].key == rut ==> ruts[i].id == id
    ensures CleanEmail(email, emails, Some(id)).Ok?
    ensures !TakenByOther(ruts, rut, Some(id))
  {
    OwnKeyNotTaken(emails, email, id);
    OwnKeyNotTaken(ruts, rut, id);
  }

  /** On a new supplier every row counts: an address already stored is refused. */
  lemma NewSupplierEmailClash(emails: seq<Keyed<string>>, k: nat)
    requires k < |emails|
    ensures CleanEmail(emails[k].key, emails, None).Err?
  {
  }

  /** A `DivisionAdministrativa`. Names are unique within a country. */
  datatype Division = Division(id: nat, pais: int, nombre: string)

  /** The supplier a form is bound to: `pk` is absent until it is saved. */
  datatype Instance = Instance(pk: Option<nat>, pais: Option<nat>, division: Option<nat>)

  /** `self.instance.pk` is truthy. */
  predicate Saved(inst: Instance) { inst.pk.Some? && inst.pk.value != 0 }

  /** `DivisionAdministrativa.objects.filter(pais_id=pais).order_by("nombre")`. */
  function DivisionsOf(divisions: seq<Division>, pais: int): (r: seq<Division>)
    ensures forall d :: d in r <==> d in divisions && d.pais == pais
    ensures forall d :: multiset(r)[d] == if d.pais == pais then multiset(divisions)[d] else 0
    ensures SortedBy(r, (d: Division) => d.nombre)
  {
    var mine := Filter(divisions, (d: Division) => d.pais == pais);
    SortByMembers(mine, (d: Division) => d.nombre);
    SortBy(mine, (d: Division) => d.nombre)
  }

  /**
   * The `division` queryset `ProveedorForm.__init__` leaves. `postedPais` is
   * `self.data.get("pais")` when the key is present. A posted country that
   * `int()` accepts selects its divisions; one it refuses leaves none; with
   * no posted country a saved instance with a country selects that
   * country's; anything else leaves none.
   */
  function DivisionChoices(postedPais: Option<string>, inst: Instance, divisions: seq<Division>): (r: seq<Division>)
    ensures postedPais.Some? && ParseInt(postedPais.value).Some? ==>
              forall d :: d in r <==> d in divisions && d.pais == ParseInt(postedPais.value).value
    ensures postedPais.Some? && ParseInt(postedPais.value).None? ==> r == []
    ensures postedPais.None? && Saved(inst) && inst.pais.Some? ==>
              forall d :: d in r <==> d in divisions && d.pais == inst.pais.value
    ensures postedPais.None? && !(Saved(inst) && inst.pais.Some?) ==> r == []
    ensures SortedBy(r, (d: Division) => d.nombre)
  {
    match postedPais
    case Some(text) =>
      (match ParseInt(text)
       case Some(pais) => DivisionsOf(divisions, pais)
       case None => [])
    case None =>
      if Saved(inst) && inst.pais.Some? then DivisionsOf(divisions, inst.pais.value) else []
  }

  /** A country posted as the decimal text of its key selects exactly that country's divisions. */
  lemma PostedCountrySelects(pais: nat, inst: Instance, divisions: seq<Division>)
    ensures forall d :: d in DivisionChoices(Some(ShowNat(pais)), inst, divisions) <==> d in divisions && d.pais == pais
  {
    ParseShowNat(pais);
  }

  /** `ModelChoiceField.clean` for `division`: blank is allowed; a key must be one of the choices. */
  function CleanDivision(posted: Option<nat>, choices: seq<Division>): (r: Result<Option<Division>, ()>)
    ensures posted.None? ==> r == Ok(None)
    ensures posted.Some? ==> (r.Ok? <==> exists d :: d in choices && d.id == posted.value)
    ensures r.Ok? && r.value.Some? ==> r.value.value in choices && Some(r.value.value.id) == posted
  {
    match posted
    case None => Ok(None)
    case Some(id) =>
      var k := FirstWithId(choices, id);
      if k < |choices| then Ok(Some(choices[k])) else Err(())
  }

  /** The position of the first division with key `id`, or `|s|` when none has it. */
  function FirstWithId(s: seq<Division>, id: nat): (k: nat)
    ensures k <= |s|
    ensures k < |s| ==> s[k].id == id
    ensures k == |s| <==> forall d :: d in s ==> d.id != id
    ensures forall j :: 0 <= j < k ==> s[j].id != id
  {
    if s == [] then 0
    else if s[0].id == id then 0
    else
      var k := FirstWithId(s[1..], id);
      assert forall d :: d in s[1..] ==> d in s;
      assert forall d :: d in s ==> d == s[0] || d in s[1..];
      k + 1
  }

  /**
   * With a posted country, an accepted division belongs to that country:
   * the form cannot pair a supplier with another country's region.
   */
  lemma AcceptedDivisionInCountry(text: string, inst: Instance, divisions: seq<Division>, posted: nat)
    requires ParseInt(text).Some?
    requires CleanDivision(Some(posted), DivisionChoices(Some(text), inst, divisions)) .Ok?
    ensures var d := CleanDivision(Some(posted), DivisionChoices(Some(text), inst, divisions)).value.value;
            d in divisions && d.pais == ParseInt(text).value
  {
  }

  /** `dict.setdefault(key, value)` on the form's `initial`. */
  function SetDefault<V>(m: map<string, V>, key: string, value: V): (r: map<string, V>)
    ensures key in r && r[key] == (if key in m then m[key] else value)
    ensures key in m ==> r == m
    ensures forall k :: k != key ==> (k in r <==> k in m) && (k in m ==> r[k] == m[k])
  {
    if key in m then m else m[key := value]
  }

  /**
   * `self.initial` as `ModelForm` builds it: `model_to_dict(instance)`, which
   * holds `pais` and `division` (as keys, possibly `None`), updated with the
   * `initial` argument.
   */
  function ModelInitial(inst: Instance, initialArg: map<string, Option<nat>>): (m: map<string, Option<nat>>)
    ensures "pais" in m && "division" in m
    ensures forall k :: k in initialArg ==> k in m && m[k] == initialArg[k]
  {
    map["pais" := inst.pais, "division" := inst.division] + initialArg
  }

  /** `ProveedorForm` once its constructor has run. */
  class ProveedorForm {
    /** `self.fields["division"].queryset`. */
    var divisionChoices: seq<Division>
    var initial: map<string, Option<nat>>

    /**
     * `ProveedorForm.__init__`. The choices are those `DivisionChoices`
     * describes. The two `setdefault` calls never change `initial`: both
     * keys are already there.
     */
    constructor (postedPais: Option<string>, inst: Instance, initialArg: map<string, Option<nat>>, divisions: seq<Division>)
      ensures divisionChoices == DivisionChoices(postedPais, inst, divisions)
      ensures initial == ModelInitial(inst, initialArg)
    {
      initial := ModelInitial(inst, initialArg);
      divisionChoices := [];
      new;
      if postedPais.Some? {
        var pais := ParseInt(postedPais.value);
        if pais.Some? {
          divisionChoices := DivisionsOf(divisions, pais.value);
        }
      } else if Saved(inst) && inst.pais.Some? {
        divisionChoices := DivisionsOf(divisions, inst.pais.value);
        initial := SetDefault(initial, "pais", inst.pais);
        if inst.division.Some? {
          initial := SetDefault(initial, "division", inst.division);
        }
      }
    }
  }
}
