/**
 * `accounts_lilis/forms.py`: the password and name validators, the
 * self-registration form and the user its `save` builds, the
 * administrators' user form with its normalised, unique username and
 * e-mail, and the two password forms.
 */
module AccountsForms {
  import opened Wrappers
  import opened Text
  import opened Tables
  import opened Web

  // ---------------------------------------------------------------------
  // Validators
  // ---------------------------------------------------------------------

  /** The four messages of `password_fuerte`. */
  datatype PasswordError = SinMayuscula | SinMinuscula | SinNumero | SinSimbolo

  /** The regex class `[!@#$%^&*(),.?":{}|<>/_\-]`. */
  const Simbolos: set<char> :=
    {'!', '@', '#', '$', '%', '^', '&', '*', '(', ')', ',', '.', '?', '"', ':',
     '{', '}', '|', '<', '>', '/', '_', '-'}

  predicate IsSimbolo(c: char) { c in Simbolos }

  /**
   * `password_fuerte`: the value needs an upper-case letter, a lower-case
   * letter, a digit and a symbol, and the first of these that is missing,
   * in that order, is the error.
   */
  function PasswordFuerte(value: string): (r: Outcome<PasswordError>)
    ensures r.Pass? <==> HasChar(value, IsUpper) && HasChar(value, IsLower)
                         && HasChar(value, IsDigit) && HasChar(value, IsSimbolo)
    ensures r == Fail(SinMayuscula) <==> !HasChar(value, IsUpper)
    ensures r == Fail(SinMinuscula) <==> HasChar(value, IsUpper) && !HasChar(value, IsLower)
    ensures r == Fail(SinNumero) <==> HasChar(value, IsUpper) && HasChar(value, IsLower) && !HasChar(value, IsDigit)
    ensures r == Fail(SinSimbolo) <==> HasChar(value, IsUpper) && HasChar(value, IsLower)
                                       && HasChar(value, IsDigit) && !HasChar(value, IsSimbolo)
  {
    if !HasChar(value, IsUpper) then Fail(SinMayuscula)
    else if !HasChar(value, IsLower) then Fail(SinMinuscula)
    else if !HasChar(value, IsDigit) then Fail(SinNumero)
    else if !HasChar(value, IsSimbolo) then Fail(SinSimbolo)
    else Pass
  }

  /** The four classes are disjoint, so a strong password has at least four characters. */
  lemma {:induction false} StrongPasswordHasFourChars(value: string)
    requires PasswordFuerte(value).Pass?
    ensures |value| >= 4
  {
    var a :| 0 <= a < |value| && IsUpper(value[a]);
    var b :| 0 <= b < |value| && IsLower(value[b]);
    var c :| 0 <= c < |value| && IsDigit(value[c]);
    var d :| 0 <= d < |value| && IsSimbolo(value[d]);
    assert !IsAsciiAlnum(value[d]);
    assert a != b && a != c && b != c && a != d && b != d && c != d;
  }

  /** The messages of `no_contiene_numeros` and `solo_letras`. */
  datatype LetterError = ContieneNumeros | NoSoloLetras

  /** `no_contiene_numeros`: refused exactly when a digit occurs. */
  function NoContieneNumeros(value: string): (r: Outcome<LetterError>)
    ensures r.Pass? <==> forall i :: 0 <= i < |value| ==> !IsDigit(value[i])
    ensures r.Fail? ==> r.error == ContieneNumeros
  {
    if HasChar(value, IsDigit) then Fail(ContieneNumeros) else Pass
  }

  /** The accented letters `solo_letras` accepts besides `A-Za-z`. */
  const LetrasAcentuadas: set<char> := {'Á', 'É', 'Í', 'Ó', 'Ú', 'á', 'é', 'í', 'ó', 'ú', 'ñ', 'Ñ'}

  /** The class `[A-Za-zÁÉÍÓÚáéíóúñÑ\s]`. */
  predicate IsLetra(c: char) { IsAsciiLetter(c) || c in LetrasAcentuadas || IsSpace(c) }

  /**
   * `solo_letras`: the value is not empty and every character is a letter
   * of the class or whitespace. The `$` anchor's final-newline case adds
   * nothing, because a newline is whitespace.
   */
  function SoloLetras(value: string): (r: Outcome<LetterError>)
    ensures r.Pass? <==> |value| > 0 && forall i :: 0 <= i < |value| ==> IsLetra(value[i])
    ensures r.Fail? ==> r.error == NoSoloLetras
  {
    if AnchoredPlus(value, IsLetra) then Pass else Fail(NoSoloLetras)
  }

  /** A value `solo_letras` accepts also passes `no_contiene_numeros`. */
  lemma SoloLetrasHasNoDigits(value: string)
    requires SoloLetras(value).Pass?
    ensures NoContieneNumeros(value).Pass?
  {
    forall i | 0 <= i < |value|
      ensures !IsDigit(value[i])
    {
      assert IsLetra(value[i]);
    }
  }

  /** A strong password fails both name validators. */
  lemma StrongPasswordIsNotAName(value: string)
    requires PasswordFuerte(value).Pass?
    ensures NoContieneNumeros(value).Fail?
    ensures SoloLetras(value).Fail?
  {
    var c :| 0 <= c < |value| && IsDigit(value[c]);
    assert !IsLetra(value[c]);
  }

  // ---------------------------------------------------------------------
  // The stored user
  // ---------------------------------------------------------------------

  /** `Usuario.estado` values the views test. */
  const Activo: string := "ACTIVO"
  const Bloqueado: string := "BLOQUEADO"

  /**
   * A stored `Usuario`. `password` is the text given to `set_password`;
   * the hash it stores is not modelled.
   */
  datatype UserRecord = UserRecord(
    id: nat,
    username: string,
    firstName: string,
    lastName: string,
    email: string,
    telefono: Option<string>,
    rol: Role,
    estado: string,
    isActive: bool,
    requiereCambio: bool,
    password: string)

  /** The position of the last `'@'` in `s`. */
  function LastAt(s: string): (r: Option<nat>)
    ensures r.Some? ==> r.value < |s| && s[r.value] == '@'
                        && forall j :: r.value < j < |s| ==> s[j] != '@'
    ensures r.None? ==> forall j :: 0 <= j < |s| ==> s[j] != '@'
  {
    if s == [] then None
    else if s[|s| - 1] == '@' then Some(|s| - 1)
    else LastAt(s[..|s| - 1])
  }

  /**
   * `BaseUserManager.normalize_email`, which `AbstractUser.clean` applies
   * before a form saves: the text after the last `'@'` is lower-cased, the
   * local part is kept as typed. Its own `strip()` is left out: the value
   * it receives is the e-mail field's, which is already stripped.
   */
  function NormalizeEmail(email: string): string {
    match LastAt(email)
    case None => email
    case Some(k) => email[..k] + "@" + Lower(email[k + 1..])
  }

  /** An address without upper-case letters is its own normal form. */
  lemma NormalizeFixed(l: string)
    requires forall i :: 0 <= i < |l| ==> !IsUpper(l[i])
    ensures NormalizeEmail(l) == l
  {
    match LastAt(l)
    case None =>
    case Some(k) =>
      var tail := l[k + 1..];
      assert forall i :: 0 <= i < |tail| ==> tail[i] == l[k + 1 + i];
      LowerOfLowered(tail);
      assert NormalizeEmail(l) == l[..k] + "@" + tail;
      SplitAround(l, k);
  }

  /** What `clean_email` returns is already normalised. */
  lemma NormalizeLowered(raw: string)
    ensures NormalizeEmail(Lower(Strip(raw))) == Lower(Strip(raw))
  {
    NormalizeFixed(Lower(Strip(raw)));
  }

  /**
   * Normalising keeps the local part as typed: an upper-case letter before
   * the last `'@'` is still there afterwards.
   */
  lemma NormalizeKeepsLocalPart(email: string, j: nat)
    requires LastAt(email).Some? && j < LastAt(email).value
    ensures j < |NormalizeEmail(email)| && NormalizeEmail(email)[j] == email[j]
  {
  }

  // ---------------------------------------------------------------------
  // RegisterForm
  // ---------------------------------------------------------------------

  /** What the sign-up page posts. */
  datatype RegisterPost = RegisterPost(
    username: string,
    firstName: string,
    lastName: string,
    email: string,
    password1: string,
    password2: string)

  /** The errors `password1` can carry, in the order Django reports them. */
  datatype Password1Error = Password1Required | Password1Weak(reason: PasswordError) | Password1Short

  /**
   * `password1`, given its stripped text: a `CharField` that is required,
   * then checked by `password_fuerte` and by `min_length=8`; both
   * validators report.
   */
  function Password1Errors(v: string): (errs: seq<Password1Error>)
    ensures v == [] ==> errs == [Password1Required]
    ensures errs == [] <==> |v| >= 8 && PasswordFuerte(v).Pass?
    ensures Password1Short in errs <==> 0 < |v| < 8
    ensures forall e :: Password1Weak(e) in errs <==> v != [] && PasswordFuerte(v) == Fail(e)
  {
    if v == [] then [Password1Required]
    else
      var fuerte := PasswordFuerte(v);
      (if fuerte.Fail? then [Password1Weak(fuerte.error)] else [])
      + (if |v| < 8 then [Password1Short] else [])
  }

  /** `cleaned_data.get("password1")`. */
  function Password1Cleaned(raw: string): Option<string> {
    if Password1Errors(Strip(raw)) == [] then Some(Strip(raw)) else None
  }

  /** `cleaned_data.get("password2")`: a required stripped `CharField`. */
  function Password2Cleaned(raw: string): Option<string> {
    if Strip(raw) == [] then None else Some(Strip(raw))
  }

  datatype RegisterField = RUsername | RFirstName | RLastName | REmail | RPassword1 | RPassword2

  const AllRegisterFields: set<RegisterField> := {RUsername, RFirstName, RLastName, REmail, RPassword1, RPassword2}

  lemma EveryRegisterField(f: RegisterField)
    ensures f in AllRegisterFields
  {
  }

  /**
   * Each field's own checks, including the model's `unique` columns
   * `username` and `email`, which `validate_unique` tests on the values the
   * user would be saved with.
   */
  predicate RegisterFieldOk(p: RegisterPost, f: RegisterField, usernames: seq<Keyed<string>>, emails: seq<Keyed<string>>) {
    match f
    case RUsername => TextFieldOk(p.username, true, 0, 150) && !TakenByOther(usernames, Strip(p.username), None)
    case RFirstName => TextFieldOk(p.firstName, false, 0, 150)
    case RLastName => TextFieldOk(p.lastName, false, 0, 150)
    case REmail => TextFieldOk(p.email, true, 0, 254) && !TakenByOther(emails, NormalizeEmail(Strip(p.email)), None)
    case RPassword1 => Password1Errors(Strip(p.password1)) == []
    case RPassword2 => Strip(p.password2) != []
  }

  function RegisterFieldErrors(p: RegisterPost, usernames: seq<Keyed<string>>, emails: seq<Keyed<string>>): (r: set<RegisterField>)
    ensures forall f :: f in r <==> !RegisterFieldOk(p, f, usernames, emails)
  {
    assert forall f: RegisterField :: f in AllRegisterFields by {
      forall f: RegisterField ensures f in AllRegisterFields {
        EveryRegisterField(f);
      }
    }
    set f | f in AllRegisterFields && !RegisterFieldOk(p, f, usernames, emails)
  }

  /** No field error means the fields `save` reads all passed their checks. */
  lemma NoRegisterFieldErrors(p: RegisterPost, usernames: seq<Keyed<string>>, emails: seq<Keyed<string>>)
    requires RegisterFieldErrors(p, usernames, emails) == {}
    ensures RegisterFieldOk(p, RUsername, usernames, emails) && RegisterFieldOk(p, REmail, usernames, emails)
    ensures RegisterFieldOk(p, RPassword1, usernames, emails) && RegisterFieldOk(p, RPassword2, usernames, emails)
  {
    assert forall f :: f !in RegisterFieldErrors(p, usernames, emails);
  }

  /** The field errors and whether `clean` added "Las contraseñas no coinciden". */
  datatype RegisterErrors = RegisterErrors(fields: set<RegisterField>, mismatch: bool)

  /** The values `RegisterForm.save` builds the user from. */
  datatype Registration = Registration(username: string, firstName: string, lastName: string, email: string, password: string)

  /**
   * `RegisterForm.is_valid()`. `clean` compares the two cleaned passwords,
   * each `None` when its field failed, so a weak `password1` next to a
   * filled-in `password2` also reports the mismatch.
   */
  function RegisterClean(p: RegisterPost, usernames: seq<Keyed<string>>, emails: seq<Keyed<string>>): (r: Result<Registration, RegisterErrors>)
    ensures r.Ok? <==> RegisterFieldErrors(p, usernames, emails) == {}
                       && Password1Cleaned(p.password1) == Password2Cleaned(p.password2)
    ensures r.Ok? ==> r.value.password == Strip(p.password1) && |r.value.password| >= 8
                      && PasswordFuerte(r.value.password).Pass?
                      && r.value.username == Strip(p.username) && r.value.username != []
                      && r.value.email == NormalizeEmail(Strip(p.email))
                      && !TakenByOther(usernames, r.value.username, None)
                      && !TakenByOther(emails, r.value.email, None)
    ensures r.Ok? ==> r.value.firstName == Strip(p.firstName) && r.value.lastName == Strip(p.lastName)
    ensures r.Err? ==> r.error.fields == RegisterFieldErrors(p, usernames, emails)
    ensures r.Err? ==> (r.error.mismatch <==> Password1Cleaned(p.password1) != Password2Cleaned(p.password2))
  {
    var fields := RegisterFieldErrors(p, usernames, emails);
    var mismatch := Password1Cleaned(p.password1) != Password2Cleaned(p.password2);
    if fields == {} && !mismatch then
      NoRegisterFieldErrors(p, usernames, emails);
      Ok(Registration(Strip(p.username), Strip(p.firstName), Strip(p.lastName),
                      NormalizeEmail(Strip(p.email)), Strip(p.password1)))
    else
      Err(RegisterErrors(fields, mismatch))
  }

  /** An accepted registration's two passwords agree once stripped. */
  lemma AcceptedPasswordsAgree(p: RegisterPost, usernames: seq<Keyed<string>>, emails: seq<Keyed<string>>)
    requires RegisterClean(p, usernames, emails).Ok?
    ensures Strip(p.password1) == Strip(p.password2) == RegisterClean(p, usernames, emails).value.password
  {
    NoRegisterFieldErrors(p, usernames, emails);
  }

  /** A weak or short `password1` beside a filled-in `password2` also shows the mismatch. */
  lemma WeakPasswordAlsoMismatches(p: RegisterPost, usernames: seq<Keyed<string>>, emails: seq<Keyed<string>>)
    requires Password1Errors(Strip(p.password1)) != [] && Strip(p.password2) != []
    ensures RegisterClean(p, usernames, emails).Err?
    ensures RegisterFieldErrors(p, usernames, emails) >= {RPassword1}
    ensures RegisterClean(p, usernames, emails).error.mismatch
  {
    WeakPasswordCleaned(p.password1, p.password2);
    Password1FieldFails(p, usernames, emails);
    assert RPassword1 in RegisterFieldErrors(p, usernames, emails);
  }

  lemma WeakPasswordCleaned(raw1: string, raw2: string)
    requires Password1Errors(Strip(raw1)) != [] && Strip(raw2) != []
    ensures Password1Cleaned(raw1).None? && Password2Cleaned(raw2).Some?
  {
  }

  lemma Password1FieldFails(p: RegisterPost, usernames: seq<Keyed<string>>, emails: seq<Keyed<string>>)
    requires Password1Cleaned(p.password1).None?
    ensures !RegisterFieldOk(p, RPassword1, usernames, emails)
  {
  }

  /**
   * `RegisterForm.save`: the user gets the cleaned values, the password and
   * the role `USUARIO`; the form has no role field, so nothing posted can
   * choose another. The other columns take their model defaults.
   */
  function RegisterSave(reg: Registration, id: nat): (u: UserRecord)
    ensures u.rol == Usuario && u.id == id
    ensures u.username == reg.username && u.email == reg.email && u.password == reg.password
    ensures u.firstName == reg.firstName && u.lastName == reg.lastName
    ensures u.estado == Activo && u.isActive && !u.requiereCambio && u.telefono.None?
  {
    UserRecord(id, reg.username, reg.firstName, reg.lastName, reg.email, None, Usuario, Activo, true, false, reg.password)
  }

  /** Whatever is posted, a registered user is a plain `USUARIO` with a strong password. */
  lemma RegisteredUserIsUsuario(p: RegisterPost, usernames: seq<Keyed<string>>, emails: seq<Keyed<string>>, id: nat)
    requires RegisterClean(p, usernames, emails).Ok?
    ensures RegisterSave(RegisterClean(p, usernames, emails).value, id).rol == Usuario
    ensures PasswordFuerte(RegisterSave(RegisterClean(p, usernames, emails).value, id).password).Pass?
    ensures |RegisterSave(RegisterClean(p, usernames, emails).value, id).password| >= 8
  {
  }

  // ---------------------------------------------------------------------
  // UsuarioAdminForm
  // ---------------------------------------------------------------------

  /**
   * `clean_username`: the stripped username, refused when another user
   * holds it.
   */
  function CleanUsername(raw: string, rows: seq<Keyed<string>>, editing: Option<nat>): (r: Result<string, ()>)
    ensures r.Ok? <==> !TakenByOther(rows, Strip(raw), editing)
    ensures r.Ok? ==> r.value == Strip(raw)
  {
    var username := Strip(raw);
    if TakenByOther(rows, username, editing) then Err(()) else Ok(username)
  }

  /**
   * `clean_email`: the stripped, lower-cased address, refused when another
   * user holds exactly that text.
   */
  function CleanEmail(raw: string, rows: seq<Keyed<string>>, editing: Option<nat>): (r: Result<string, ()>)
    ensures r.Ok? <==> !TakenByOther(rows, Lower(Strip(raw)), editing)
    ensures r.Ok? ==> r.value == Lower(Strip(raw)) && forall i :: 0 <= i < |r.value| ==> !IsUpper(r.value[i])
  {
    var email := Lower(Strip(raw));
    if TakenByOther(rows, email, editing) then Err(()) else Ok(email)
  }

  /** Re-saving a user with its own username and e-mail passes. */
  lemma ResaveOwnUser(username: string, email: string, usernames: seq<Keyed<string>>, emails: seq<Keyed<string>>, id: nat)
    requires forall i :: 0 <= i < |usernames| && usernames[i].key == Strip(username) ==> usernames[i].id == id
    requires forall i :: 0 <= i < |emails| && emails[i].key == Lower(Strip(email)) ==> emails[i].id == id
    ensures CleanUsername(username, usernames, Some(id)).Ok?
    ensures CleanEmail(email, emails, Some(id)).Ok?
  {
    OwnKeyNotTaken(usernames, Strip(username), id);
    OwnKeyNotTaken(emails, Lower(Strip(email)), id);
  }

  /** An e-mail differing only in case and surrounding spaces clashes with a stored lower-case one. */
  lemma EmailClashIgnoresCase(raw: string, emails: seq<Keyed<string>>, k: nat)
    requires k < |emails| && emails[k].key == Lower(Strip(raw))
    ensures CleanEmail(raw, emails, None).Err?
  {
  }

  /**
   * What the administrators' form posts. `rol` and `estado` are `None` when
   * the posted value is not one of the field's choices.
   */
  datatype AdminPost = AdminPost(
    username: string,
    firstName: string,
    lastName: string,
    email: string,
    telefono: string,
    rol: Option<Role>,
    estado: Option<string>)

  datatype AdminField = AUsername | AFirstName | ALastName | AEmail | ATelefono | ARol | AEstado

  const AllAdminFields: set<AdminField> := {AUsername, AFirstName, ALastName, AEmail, ATelefono, ARol, AEstado}

  lemma EveryAdminField(f: AdminField)
    ensures f in AllAdminFields
  {
  }

  /**
   * Each field's own checks. `frozen` is the stored user when the view has
   * disabled `rol` and `estado`; a disabled field ignores what is posted
   * and takes the stored value, which is always a valid choice.
   */
  predicate AdminFieldOk(p: AdminPost, f: AdminField, usernames: seq<Keyed<string>>, emails: seq<Keyed<string>>,
                         editing: Option<nat>, frozen: Option<UserRecord>) {
    match f
    case AUsername => TextFieldOk(p.username, true, 0, 150) && CleanUsername(p.username, usernames, editing).Ok?
    case AFirstName => TextFieldOk(p.firstName, false, 0, 150)
    case ALastName => TextFieldOk(p.lastName, false, 0, 150)
    case AEmail => TextFieldOk(p.email, true, 0, 254) && CleanEmail(p.email, emails, editing).Ok?
    case ATelefono => TextFieldOk(p.telefono, false, 0, 20)
    case ARol => frozen.Some? || p.rol.Some?
    case AEstado => frozen.Some? || p.estado.Some?
  }

  function AdminFieldErrors(p: AdminPost, usernames: seq<Keyed<string>>, emails: seq<Keyed<string>>,
                            editing: Option<nat>, frozen: Option<UserRecord>): (r: set<AdminField>)
    ensures forall f :: f in r <==> !AdminFieldOk(p, f, usernames, emails, editing, frozen)
  {
    assert forall f: AdminField :: f in AllAdminFields by {
      forall f: AdminField ensures f in AllAdminFields {
        EveryAdminField(f);
      }
    }
    set f | f in AllAdminFields && !AdminFieldOk(p, f, usernames, emails, editing, frozen)
  }

  /** The values `UsuarioAdminForm.save(commit=False)` writes onto the user. */
  datatype AdminFields = AdminFields(
    username: string,
    firstName: string,
    lastName: string,
    email: string,
    telefono: Option<string>,
    rol: Role,
    estado: string)

  /** A nullable `CharField`: a blank value is stored as `NULL`. */
  function NullIfBlank(raw: string): (r: Option<string>)
    ensures r.None? <==> Strip(raw) == []
    ensures r.Some? ==> r.value == Strip(raw)
  {
    if Strip(raw) == [] then None else Some(Strip(raw))
  }

  /** `UsuarioAdminForm.is_valid()` and the cleaned values. */
  function AdminClean(p: AdminPost, usernames: seq<Keyed<string>>, emails: seq<Keyed<string>>,
                      editing: Option<nat>, frozen: Option<UserRecord>): (r: Result<AdminFields, set<AdminField>>)
    ensures r.Ok? <==> AdminFieldErrors(p, usernames, emails, editing, frozen) == {}
    ensures r.Err? ==> r.error == AdminFieldErrors(p, usernames, emails, editing, frozen)
    ensures r.Ok? ==> r.value.username == Strip(p.username) && r.value.username != []
                      && !TakenByOther(usernames, r.value.username, editing)
    ensures r.Ok? ==> r.value.email == Lower(Strip(p.email)) && NormalizeEmail(r.value.email) == r.value.email
                      && !TakenByOther(emails, r.value.email, editing)
    ensures r.Ok? ==> r.value.telefono == NullIfBlank(p.telefono)
    ensures r.Ok? ==> r.value.firstName == Strip(p.firstName) && r.value.lastName == Strip(p.lastName)
    ensures r.Ok? && frozen.Some? ==> r.value.rol == frozen.value.rol && r.value.estado == frozen.value.estado
    ensures r.Ok? && frozen.None? ==> p.rol == Some(r.value.rol) && p.estado == Some(r.value.estado)
  {
    var errors := AdminFieldErrors(p, usernames, emails, editing, frozen);
    if errors == {} then
      assert AdminFieldOk(p, AUsername, usernames, emails, editing, frozen);
      assert AdminFieldOk(p, AEmail, usernames, emails, editing, frozen);
      assert AdminFieldOk(p, ARol, usernames, emails, editing, frozen);
      assert AdminFieldOk(p, AEstado, usernames, emails, editing, frozen);
      NormalizeLowered(p.email);
      var rol := if frozen.Some? then frozen.value.rol else p.rol.value;
      var estado := if frozen.Some? then frozen.value.estado else p.estado.value;
      Ok(AdminFields(Strip(p.username), Strip(p.firstName), Strip(p.lastName), Lower(Strip(p.email)),
                     NullIfBlank(p.telefono), rol, estado))
    else
      Err(errors)
  }

  /** With `rol` and `estado` disabled, no posted role or state changes the outcome. */
  lemma DisabledFieldsIgnorePost(p: AdminPost, rol: Option<Role>, estado: Option<string>,
                                 usernames: seq<Keyed<string>>, emails: seq<Keyed<string>>, editing: Option<nat>, stored: UserRecord)
    ensures AdminClean(p.(rol := rol, estado := estado), usernames, emails, editing, Some(stored))
            == AdminClean(p, usernames, emails, editing, Some(stored))
  {
    var q := p.(rol := rol, estado := estado);
    forall f: AdminField
      ensures AdminFieldOk(q, f, usernames, emails, editing, Some(stored)) == AdminFieldOk(p, f, usernames, emails, editing, Some(stored))
    {
    }
    assert AdminFieldErrors(q, usernames, emails, editing, Some(stored)) == AdminFieldErrors(p, usernames, emails, editing, Some(stored));
  }

  // ---------------------------------------------------------------------
  // CustomPasswordResetForm, CustomSetPasswordForm
  // ---------------------------------------------------------------------

  /**
   * `CustomPasswordResetForm.clean_email` as written: the stripped,
   * lower-cased address must equal a stored e-mail exactly.
   */
  function ResetEmailAsWritten(raw: string, emails: seq<string>): (r: Result<string, ()>)
    ensures r.Ok? <==> Strip(raw) != [] && Lower(Strip(raw)) in emails
    ensures r.Ok? ==> r.value == Lower(Strip(raw))
  {
    var email := Lower(Strip(raw));
    if Strip(raw) != [] && email in emails then Ok(email) else Err(())
  }

  /**
   * A stored e-mail with an upper-case letter, which registration keeps in
   * the local part, is never found: no lower-cased input equals it.
   */
  lemma MixedCaseEmailNeverFound(raw: string, emails: seq<string>)
    requires forall i :: 0 <= i < |emails| ==> HasChar(emails[i], IsUpper)
    ensures ResetEmailAsWritten(raw, emails).Err?
  {
    var email := Lower(Strip(raw));
    forall i | 0 <= i < |emails|
      ensures emails[i] != email
    {
      var j :| 0 <= j < |emails[i]| && IsUpper(emails[i][j]);
      if j < |email| {
        assert !IsUpper(email[j]);
      }
    }
  }

  /** The comparison the reset is meant to make: the address, ignoring case, of some stored user. */
  function ResetEmail(raw: string, emails: seq<string>): (r: Result<string, ()>)
    ensures r.Ok? <==> Strip(raw) != [] && exists i :: 0 <= i < |emails| && Lower(emails[i]) == Lower(Strip(raw))
    ensures r.Ok? ==> r.value == Lower(Strip(raw))
  {
    var email := Lower(Strip(raw));
    if Strip(raw) != [] && exists i :: 0 <= i < |emails| && Lower(emails[i]) == email then Ok(email) else Err(())
  }

  /** Every stored user can ask for a reset with the address as stored. */
  lemma StoredEmailResets(emails: seq<string>, k: nat)
    requires k < |emails| && emails[k] != [] && !IsSpace(emails[k][0]) && !IsSpace(emails[k][|emails[k]| - 1])
    ensures ResetEmail(emails[k], emails).Ok?
  {
    StripOfTrimmed(emails[k]);
  }

  /** On lower-case stored addresses the two lookups agree. */
  lemma ResetLookupsAgreeOnLowerCase(raw: string, emails: seq<string>)
    requires forall i :: 0 <= i < |emails| ==> Lower(emails[i]) == emails[i]
    ensures ResetEmail(raw, emails) == ResetEmailAsWritten(raw, emails)
  {
  }

  /**
   * A user who signs up with an upper-case letter before the `'@'`, such as
   * `Ana@lilis.cl`, is stored with it (`RegisterClean` saves
   * `NormalizeEmail` of the stripped address) and, as written, can never
   * ask for a reset.
   */
  lemma RegisteredMixedCaseCannotReset(email: string, j: nat, raw: string)
    requires LastAt(email).Some? && j < LastAt(email).value && IsUpper(email[j])
    ensures ResetEmailAsWritten(raw, [NormalizeEmail(email)]).Err?
  {
    NormalizeKeepsLocalPart(email, j);
    MixedCaseEmailNeverFound(raw, [NormalizeEmail(email)]);
  }

  /**
   * `CustomSetPasswordForm`: both fields required and not stripped, the
   * first checked by `password_fuerte`, the two equal. The result is the
   * new password.
   */
  function SetPasswordClean(password1: string, password2: string): (r: Option<string>)
    ensures r.Some? <==> password1 != [] && PasswordFuerte(password1).Pass? && password1 == password2
    ensures r.Some? ==> r.value == password2
  {
    if password1 != [] && PasswordFuerte(password1).Pass? && password1 == password2 then Some(password2) else None
  }
}
