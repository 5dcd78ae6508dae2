/**
 * `accounts_lilis/views.py`: the ADMIN test of the user maintenance views,
 * the login routing, and the changes the sign-up, maintenance and
 * mandatory password-change views make to the user table.
 */
module AccountsViews {
  import opened Wrappers
  import opened Web
  import opened Text
  import opened Tables
  import opened AccountsForms

  /** `permiso_admin`. */
  function PermisoAdmin(user: Principal): (b: bool)
    ensures b <==> user.HasRoleIn({Admin})
  {
    user.IsAuthenticated() && user.rol == Admin
  }

  /**
   * `@login_required` over `@user_passes_test(permiso_admin)`: the view
   * runs for an ADMIN; everyone else, logged in or not, is sent to the
   * login page.
   */
  function AdminGate(user: Principal, view: Response): (r: Response)
    ensures PermisoAdmin(user) ==> r == view
    ensures !PermisoAdmin(user) ==> r == RedirectTo(Login)
  {
    LoginRequired(user, UserPassesTest(PermisoAdmin(user), view))
  }

  /** The username the maintenance views protect. */
  const PrincipalUsername: string := "admin_principal"

  // ---------------------------------------------------------------------
  // login_personalizado
  // ---------------------------------------------------------------------

  /**
   * What `login_personalizado` answers, whom it logs in (`auth_login`), and
   * whether it adds an error message.
   */
  datatype LoginOutcome = LoginOutcome(resp: Response, session: Option<nat>, error: bool)

  /**
   * `login_personalizado`. `authenticated` is what `authenticate` returned
   * for the posted credentials. A `BLOQUEADO` account is refused before the
   * `is_active` test; a logged-in user goes to the forced password change
   * first, then an ADMIN to the maintenance page, anyone else to the
   * landing page.
   */
  function LoginPersonalizado(m: Method, authenticated: Option<UserRecord>): (r: LoginOutcome)
    ensures r.session.Some? <==> m == Post && authenticated.Some?
                                 && authenticated.value.estado != Bloqueado && authenticated.value.isActive
    ensures r.session.Some? ==> r.session.value == authenticated.value.id && !r.error
    ensures m == Get ==> r.resp == Render(Login) && !r.error
    ensures m == Post && authenticated.None? ==> r.resp == Render(Login) && r.error
    ensures m == Post && authenticated.Some? && r.session.None? ==> r.resp == RedirectTo(Login) && r.error
    ensures r.resp == RedirectTo(CambiarPasswordObligatorio) <==> r.session.Some? && authenticated.value.requiereCambio
    ensures r.resp == RedirectTo(Mantenedores) <==>
              r.session.Some? && !authenticated.value.requiereCambio && authenticated.value.rol == Admin
    ensures r.resp == RedirectTo(Landing) <==>
              r.session.Some? && !authenticated.value.requiereCambio && authenticated.value.rol != Admin
  {
    match (m, authenticated)
    case (Get, _) => LoginOutcome(Render(Login), None, false)
    case (Post, None) => LoginOutcome(Render(Login), None, true)
    case (Post, Some(u)) =>
      if u.estado == Bloqueado then LoginOutcome(RedirectTo(Login), None, true)
      else if !u.isActive then LoginOutcome(RedirectTo(Login), None, true)
      else if u.requiereCambio then LoginOutcome(RedirectTo(CambiarPasswordObligatorio), Some(u.id), false)
      else if u.rol == Admin then LoginOutcome(RedirectTo(Mantenedores), Some(u.id), false)
      else LoginOutcome(RedirectTo(Landing), Some(u.id), false)
  }

  /**
   * Whoever is sent to the maintenance page is the ADMIN just logged in, so
   * the user maintenance views let them through.
   */
  lemma MantenedoresOnlyForAdmins(authenticated: Option<UserRecord>, view: Response)
    requires LoginPersonalizado(Post, authenticated).resp == RedirectTo(Mantenedores)
    ensures authenticated.Some? && authenticated.value.rol == Admin
    ensures AdminGate(Member(authenticated.value.id, authenticated.value.rol), view) == view
  {
  }

  /** A user who must change the password is sent to the change page even as ADMIN. */
  lemma PendingChangeWinsOverAdmin(u: UserRecord)
    requires u.estado != Bloqueado && u.isActive && u.requiereCambio && u.rol == Admin
    ensures LoginPersonalizado(Post, Some(u)).resp == RedirectTo(CambiarPasswordObligatorio)
    ensures LoginPersonalizado(Post, Some(u)).session == Some(u.id)
  {
  }

  // ---------------------------------------------------------------------
  // The temporary password of usuario_agregar
  // ---------------------------------------------------------------------

  const TempPrefix: string := "LILIS-"

  /** `"LILIS-" + suffix + "!"`, where the view draws `suffix` at random. */
  function TempPassword(suffix: string): string {
    TempPrefix + suffix + "!"
  }

  /** The documented shape: 13 characters, `LILIS-`, six ASCII letters or digits, `!`. */
  predicate IsTempPassword(pw: string) {
    |pw| == 13 && pw[..6] == TempPrefix && pw[12] == '!'
    && forall i :: 6 <= i < 12 ==> IsAsciiAlnum(pw[i])
  }

  /** `random.choices(ascii_letters + digits, k=6)` gives six ASCII letters or digits. */
  predicate IsRandomSuffix(suffix: string) {
    |suffix| == 6 && forall i :: 0 <= i < 6 ==> IsAsciiAlnum(suffix[i])
  }

  /** Every suffix the view can draw gives a password of the documented shape. */
  lemma TempPasswordShape(suffix: string)
    requires IsRandomSuffix(suffix)
    ensures IsTempPassword(TempPassword(suffix))
  {
    var pw := TempPassword(suffix);
    assert pw[..6] == TempPrefix;
    assert forall i :: 6 <= i < 12 ==> pw[i] == suffix[i - 6];
  }

  /**
   * The temporary password need not meet `password_fuerte`: `LILIS-` has no
   * lower-case letter, so a suffix without one gives a password the
   * validator would refuse. It is set directly and never validated.
   */
  lemma TempPasswordCanBeWeak(suffix: string)
    requires IsRandomSuffix(suffix) && forall i :: 0 <= i < 6 ==> !IsLower(suffix[i])
    ensures PasswordFuerte(TempPassword(suffix)) == Fail(SinMinuscula)
  {
    var pw := TempPassword(suffix);
    assert IsUpper(pw[0]);
    forall i | 0 <= i < |pw|
      ensures !IsLower(pw[i])
    {
      if 6 <= i < 12 {
        assert pw[i] == suffix[i - 6];
      }
    }
  }

  // ---------------------------------------------------------------------
  // The user table
  // ---------------------------------------------------------------------

  /** Keys ascend along the table, so its order is `order_by("id")`. */
  predicate Ascending(rows: seq<UserRecord>) {
    forall i, j :: 0 <= i < j < |rows| ==> rows[i].id < rows[j].id
  }

  predicate KeysBelow(rows: seq<UserRecord>, bound: nat) {
    forall i :: 0 <= i < |rows| ==> rows[i].id < bound
  }

  /** The model's `unique` columns `username` and `email`. */
  predicate UniqueColumns(rows: seq<UserRecord>) {
    forall i, j :: 0 <= i < j < |rows| ==> rows[i].username != rows[j].username && rows[i].email != rows[j].email
  }

  predicate Table(rows: seq<UserRecord>, bound: nat) {
    Ascending(rows) && KeysBelow(rows, bound) && UniqueColumns(rows)
  }

  function UsernameColumn(rows: seq<UserRecord>): (c: seq<Keyed<string>>)
    ensures |c| == |rows|
  {
    seq(|rows|, i requires 0 <= i < |rows| => Keyed(rows[i].id, rows[i].username))
  }

  function EmailColumn(rows: seq<UserRecord>): (c: seq<Keyed<string>>)
    ensures |c| == |rows|
  {
    seq(|rows|, i requires 0 <= i < |rows| => Keyed(rows[i].id, rows[i].email))
  }

  /** Row `i` of the two unique columns holds row `i`'s key and value. */
  lemma ColumnsAt(rows: seq<UserRecord>, i: nat)
    requires i < |rows|
    ensures UsernameColumn(rows)[i] == Keyed(rows[i].id, rows[i].username)
    ensures EmailColumn(rows)[i] == Keyed(rows[i].id, rows[i].email)
  {
  }

  function IndexOfUser(rows: seq<UserRecord>, id: nat): (r: Option<nat>)
    ensures r.None? <==> forall i :: 0 <= i < |rows| ==> rows[i].id != id
    ensures r.Some? ==> r.value < |rows| && rows[r.value].id == id
  {
    if rows == [] then None
    else if rows[0].id == id then Some(0)
    else match IndexOfUser(rows[1..], id)
      case None => None
      case Some(k) => Some(k + 1)
  }

  /** A new user with a fresh key and untaken username and e-mail keeps the table's invariants. */
  lemma AppendUser(rows: seq<UserRecord>, bound: nat, u: UserRecord)
    requires Table(rows, bound) && u.id == bound
    requires !TakenByOther(UsernameColumn(rows), u.username, None)
    requires !TakenByOther(EmailColumn(rows), u.email, None)
    ensures Table(rows + [u], bound + 1)
  {
    var r := rows + [u];
    forall i | 0 <= i < |rows|
      ensures rows[i].username != u.username && rows[i].email != u.email
    {
      ColumnsAt(rows, i);
    }
    assert forall i :: 0 <= i < |rows| ==> r[i] == rows[i];
  }

  /** Replacing row `k` by one with its key and values no other row holds keeps the invariants. */
  lemma ReplaceUser(rows: seq<UserRecord>, bound: nat, k: nat, u: UserRecord)
    requires Table(rows, bound) && k < |rows| && u.id == rows[k].id
    requires !TakenByOther(UsernameColumn(rows), u.username, Some(u.id))
    requires !TakenByOther(EmailColumn(rows), u.email, Some(u.id))
    ensures Table(rows[k := u], bound)
  {
    forall i | 0 <= i < |rows| && i != k
      ensures rows[i].username != u.username && rows[i].email != u.email
    {
      assert rows[i].id != u.id;
      ColumnsAt(rows, i);
    }
  }

  /** Changing only columns that are neither keys nor unique keeps the invariants. */
  lemma ReplaceSameKeys(rows: seq<UserRecord>, bound: nat, k: nat, u: UserRecord)
    requires Table(rows, bound) && k < |rows|
    requires u.id == rows[k].id && u.username == rows[k].username && u.email == rows[k].email
    ensures Table(rows[k := u], bound)
  {
  }

  /** Removing a row keeps the invariants. */
  lemma RemoveUser(rows: seq<UserRecord>, bound: nat, k: nat)
    requires Table(rows, bound) && k < |rows|
    ensures Table(rows[..k] + rows[k + 1..], bound)
  {
    var r := rows[..k] + rows[k + 1..];
    assert forall i :: 0 <= i < |r| ==> r[i] == rows[if i < k then i else i + 1];
  }

  /**
   * `usuario_editar`'s save: the cleaned values go onto the stored user,
   * and a user that ends up named `admin_principal` is forced back to
   * ADMIN and ACTIVO. Key, password and flags are kept.
   */
  function ApplyEdit(stored: UserRecord, f: AdminFields): (u: UserRecord)
    ensures u.id == stored.id && u.password == stored.password
    ensures u.isActive == stored.isActive && u.requiereCambio == stored.requiereCambio
    ensures u.username == f.username && u.email == f.email && u.telefono == f.telefono
    ensures u.firstName == f.firstName && u.lastName == f.lastName
    ensures u.username == PrincipalUsername ==> u.rol == Admin && u.estado == Activo
    ensures u.username != PrincipalUsername ==> u.rol == f.rol && u.estado == f.estado
  {
    var edited := stored.(username := f.username, firstName := f.firstName, lastName := f.lastName,
                          email := f.email, telefono := f.telefono, rol := f.rol, estado := f.estado);
    if edited.username == PrincipalUsername then edited.(rol := Admin, estado := Activo) else edited
  }

  /** The user `usuario_agregar` saves: the cleaned values, the temporary password, a pending change. */
  function NewFromAdmin(f: AdminFields, id: nat, password: string): (u: UserRecord)
    ensures u.id == id && u.username == f.username && u.email == f.email
    ensures u.rol == f.rol && u.estado == f.estado && u.password == password
    ensures u.requiereCambio && u.isActive
  {
    UserRecord(id, f.username, f.firstName, f.lastName, f.email, f.telefono, f.rol, f.estado, true, true, password)
  }

  /** A form view's request: the empty form, or the posted values. */
  datatype FormRequest<P> = GetForm | PostForm(data: P)

  /** The posted new password, twice. */
  datatype PasswordPost = PasswordPost(newPassword1: string, newPassword2: string)

  /** The `Usuario` table. */
  class UserStore {
    var users: seq<UserRecord>
    var nextId: nat

    ghost predicate Valid()
      reads this
    {
      Table(users, nextId)
    }

    constructor ()
      ensures Valid() && users == [] && nextId == 1
    {
      users := [];
      nextId := 1;
    }

    /** `usuario_listar`: ADMIN only, every user in key order. */
    method UsuarioListar(user: Principal) returns (resp: Response, listed: seq<UserRecord>)
      requires Valid()
      ensures resp == AdminGate(user, Render(Web.UsuarioListar))
      ensures PermisoAdmin(user) ==> listed == users && Ascending(listed)
      ensures !PermisoAdmin(user) ==> listed == []
    {
      resp := AdminGate(user, Render(Web.UsuarioListar));
      listed := if PermisoAdmin(user) then users else [];
    }

    /** `RegisterForm.is_valid()` against the stored users. */
    function RegisterOutcome(data: RegisterPost): Result<Registration, RegisterErrors>
      reads this
    {
      RegisterClean(data, UsernameColumn(users), EmailColumn(users))
    }

    /** `UsuarioAdminForm.is_valid()` against the stored users. */
    function AdminOutcome(data: AdminPost, editing: Option<nat>, frozen: Option<UserRecord>): Result<AdminFields, set<AdminField>>
      reads this
    {
      AdminClean(data, UsernameColumn(users), EmailColumn(users), editing, frozen)
    }

    /** `save()` of a new user: the next key, a username and e-mail no one has. */
    method Insert(u: UserRecord)
      requires Valid() && u.id == nextId
      requires !TakenByOther(UsernameColumn(users), u.username, None)
      requires !TakenByOther(EmailColumn(users), u.email, None)
      modifies this
      ensures Valid() && users == old(users) + [u] && nextId == old(nextId) + 1
    {
      AppendUser(users, nextId, u);
      users := users + [u];
      nextId := nextId + 1;
    }

    /** `save()` of an edited user: same key, a username and e-mail no other user has. */
    method Replace(k: nat, u: UserRecord)
      requires Valid() && k < |users| && u.id == users[k].id
      requires !TakenByOther(UsernameColumn(users), u.username, Some(u.id))
      requires !TakenByOther(EmailColumn(users), u.email, Some(u.id))
      modifies this
      ensures Valid() && users == old(users)[k := u] && nextId == old(nextId)
    {
      ReplaceUser(users, nextId, k, u);
      users := users[k := u];
    }

    /**
     * `RegisterView`: a valid sign-up appends the user `RegisterForm.save`
     * builds, a `USUARIO`, and logs them in; anything else changes nothing.
     */
    method Registrar(req: FormRequest<RegisterPost>) returns (resp: Response, session: Option<nat>)
      requires Valid()
      modifies this
      ensures Valid()
      ensures req.GetForm? ==> resp == Render(Registro) && session.None? && unchanged(this)
      ensures req.PostForm? ==>
                (var o := old(RegisterOutcome(req.data));
                 if o.Ok? then
                   resp == RedirectTo(Landing) && session == Some(old(nextId))
                   && users == old(users) + [RegisterSave(o.value, old(nextId))]
                 else resp == Render(Registro) && session.None? && unchanged(this))
    {
      session := None;
      if req.PostForm? {
        var outcome := RegisterOutcome(req.data);
        if outcome.Ok? {
          var id := nextId;
          Insert(RegisterSave(outcome.value, id));
          return RedirectTo(Landing), Some(id);
        }
      }
      resp := Render(Registro);
    }

    /** The POST branch of `usuario_agregar`. */
    method AgregarPost(data: AdminPost, suffix: string) returns (resp: Response)
      requires Valid() && IsRandomSuffix(suffix)
      modifies this
      ensures Valid()
      ensures (var o := old(AdminOutcome(data, None, None));
               if o.Ok? then
                 resp == RedirectTo(Web.UsuarioListar)
                 && users == old(users) + [NewFromAdmin(o.value, old(nextId), TempPassword(suffix))]
               else resp == Render(Web.UsuarioAgregar) && unchanged(this))
    {
      var outcome := AdminOutcome(data, None, None);
      if outcome.Ok? {
        Insert(NewFromAdmin(outcome.value, nextId, TempPassword(suffix)));
        return RedirectTo(Web.UsuarioListar);
      }
      resp := Render(Web.UsuarioAgregar);
    }

    /**
     * `usuario_agregar`: an ADMIN's valid form appends the user with a
     * temporary password and the forced change pending. `suffix` is the
     * six random characters.
     */
    method UsuarioAgregar(user: Principal, req: FormRequest<AdminPost>, suffix: string) returns (resp: Response)
      requires Valid() && IsRandomSuffix(suffix)
      modifies this
      ensures Valid()
      ensures !PermisoAdmin(user) ==> resp == RedirectTo(Login) && unchanged(this)
      ensures PermisoAdmin(user) && req.GetForm? ==> resp == Render(Web.UsuarioAgregar) && unchanged(this)
      ensures PermisoAdmin(user) && req.PostForm? ==>
                (var o := old(AdminOutcome(req.data, None, None));
                 if o.Ok? then
                   resp == RedirectTo(Web.UsuarioListar)
                   && users == old(users) + [NewFromAdmin(o.value, old(nextId), TempPassword(suffix))]
                 else resp == Render(Web.UsuarioAgregar) && unchanged(this))
      ensures |users| > |old(users)| ==> IsTempPassword(users[|users| - 1].password) && users[|users| - 1].requiereCambio
    {
      if !PermisoAdmin(user) {
        return RedirectTo(Login);
      }
      TempPasswordShape(suffix);
      if req.PostForm? {
        resp := AgregarPost(req.data, suffix);
      } else {
        resp := Render(Web.UsuarioAgregar);
      }
    }

    /** The disabled fields of `usuario_editar`'s form: frozen for `admin_principal`. */
    function Frozen(k: nat): Option<UserRecord>
      requires k < |users|
      reads this
    {
      if users[k].username == PrincipalUsername then Some(users[k]) else None
    }

    /**
     * The POST branch of `usuario_editar` for the user in row `k`: a valid
     * form saves the edit (`ApplyEdit`) into that row only.
     */
    method EditPost(k: nat, data: AdminPost) returns (resp: Response)
      requires Valid() && k < |users|
      modifies this
      ensures Valid() && nextId == old(nextId) && |users| == |old(users)|
      ensures (var o := old(AdminOutcome(data, Some(users[k].id), Frozen(k)));
               if o.Ok? then
                 resp == RedirectTo(Web.UsuarioListar) && users == old(users)[k := ApplyEdit(old(users)[k], o.value)]
               else resp == Render(Web.UsuarioEditar) && unchanged(this))
    {
      var outcome := AdminOutcome(data, Some(users[k].id), Frozen(k));
      if outcome.Ok? {
        Replace(k, ApplyEdit(users[k], outcome.value));
        return RedirectTo(Web.UsuarioListar);
      }
      resp := Render(Web.UsuarioEditar);
    }

    /**
     * `usuario_editar`: for `admin_principal` the role and state fields are
     * disabled, and whoever is saved as `admin_principal` is ADMIN and
     * ACTIVO (`ApplyEdit`). Only the edited row changes.
     */
    method UsuarioEditar(user: Principal, id: nat, req: FormRequest<AdminPost>) returns (resp: Response)
      requires Valid()
      modifies this
      ensures Valid() && nextId == old(nextId) && |users| == |old(users)|
      ensures !PermisoAdmin(user) ==> resp == RedirectTo(Login) && unchanged(this)
      ensures PermisoAdmin(user) && old(IndexOfUser(users, id)).None? ==> resp == NotFound && unchanged(this)
      ensures PermisoAdmin(user) && old(IndexOfUser(users, id)).Some? && req.GetForm? ==>
                resp == Render(Web.UsuarioEditar) && unchanged(this)
      ensures PermisoAdmin(user) && old(IndexOfUser(users, id)).Some? && req.PostForm? ==>
                (var k := old(IndexOfUser(users, id)).value;
                 var o := old(AdminOutcome(req.data, Some(id), Frozen(k)));
                 if o.Ok? then
                   resp == RedirectTo(Web.UsuarioListar) && users == old(users)[k := ApplyEdit(old(users)[k], o.value)]
                 else resp == Render(Web.UsuarioEditar) && unchanged(this))
    {
      if !PermisoAdmin(user) {
        return RedirectTo(Login);
      }
      var found := IndexOfUser(users, id);
      if found.None? {
        return NotFound;
      }
      if req.PostForm? {
        resp := EditPost(found.value, req.data);
      } else {
        resp := Render(Web.UsuarioEditar);
      }
    }

    /**
     * `usuario_eliminar`: `admin_principal` is never deleted; any other
     * user is, whatever the request method, unless a movement still refers
     * to it (`PROTECT`, `inUse`).
     */
    method UsuarioEliminar(user: Principal, id: nat, inUse: set<nat>) returns (resp: Response)
      requires Valid()
      modifies this
      ensures Valid() && nextId == old(nextId)
      ensures !PermisoAdmin(user) ==> resp == RedirectTo(Login) && unchanged(this)
      ensures PermisoAdmin(user) && old(IndexOfUser(users, id)).None? ==> resp == NotFound && unchanged(this)
      ensures PermisoAdmin(user) && old(IndexOfUser(users, id)).Some? ==>
                (var k := old(IndexOfUser(users, id)).value;
                 if old(users)[k].username == PrincipalUsername then resp == RedirectTo(Web.UsuarioListar) && unchanged(this)
                 else if id in inUse then resp == ServerError && unchanged(this)
                 else resp == RedirectTo(Web.UsuarioListar) && users == old(users)[..k] + old(users)[k + 1..])
      ensures forall i :: 0 <= i < |old(users)| && old(users)[i].username == PrincipalUsername ==> old(users)[i] in users
    {
      if !PermisoAdmin(user) {
        return RedirectTo(Login);
      }
      var found := IndexOfUser(users, id);
      if found.None? {
        return NotFound;
      }
      var k := found.value;
      if users[k].username == PrincipalUsername {
        return RedirectTo(Web.UsuarioListar);
      }
      if id in inUse {
        return ServerError;
      }
      RemoveUser(users, nextId, k);
      RemoveSparesOthers(users, k);
      users := users[..k] + users[k + 1..];
      resp := RedirectTo(Web.UsuarioListar);
    }

    /**
     * `CambioPasswordObligatorioView`: once the new password is accepted,
     * the logged-in user has it and no longer has to change it.
     */
    method CambioPasswordObligatorio(user: Principal, req: FormRequest<PasswordPost>) returns (resp: Response)
      requires Valid()
      modifies this
      ensures Valid() && nextId == old(nextId) && |users| == |old(users)|
      ensures !user.IsAuthenticated() ==> resp == RedirectTo(Login) && unchanged(this)
      ensures user.IsAuthenticated() && req.GetForm? ==> resp == Render(CambiarPasswordObligatorio) && unchanged(this)
      ensures user.IsAuthenticated() && req.PostForm? && SetPasswordClean(req.data.newPassword1, req.data.newPassword2).None? ==>
                resp == Render(CambiarPasswordObligatorio) && unchanged(this)
      ensures user.IsAuthenticated() && req.PostForm? && SetPasswordClean(req.data.newPassword1, req.data.newPassword2).Some? ==>
                resp == RedirectTo(PasswordResetComplete)
                && (old(IndexOfUser(users, user.id)).Some? ==>
                      (var k := old(IndexOfUser(users, user.id)).value;
                       users == old(users)[k := old(users)[k].(requiereCambio := false,
                                                               password := SetPasswordClean(req.data.newPassword1, req.data.newPassword2).value)]))
      ensures forall i :: 0 <= i < |users| && users[i] != old(users)[i] ==>
                users[i].id == user.id && !users[i].requiereCambio && PasswordFuerte(users[i].password).Pass?
    {
      if !user.IsAuthenticated() {
        return RedirectTo(Login);
      }
      if req.PostForm? {
        var outcome := SetPasswordClean(req.data.newPassword1, req.data.newPassword2);
        if outcome.Some? {
          var found := IndexOfUser(users, user.id);
          if found.Some? {
            var k := found.value;
            var u := users[k].(requiereCambio := false, password := outcome.value);
            ReplaceSameKeys(users, nextId, k, u);
            users := users[k := u];
          }
          return RedirectTo(PasswordResetComplete);
        }
      }
      resp := Render(CambiarPasswordObligatorio);
    }
  }

  /** Removing row `k` keeps every other row. */
  lemma RemoveSparesOthers(rows: seq<UserRecord>, k: nat)
    requires k < |rows|
    ensures forall i :: 0 <= i < |rows| && i != k ==> rows[i] in rows[..k] + rows[k + 1..]
  {
    var r := rows[..k] + rows[k + 1..];
    forall i | 0 <= i < |rows| && i != k
      ensures rows[i] in r
    {
      if i < k {
        assert r[i] == rows[i];
      } else {
        assert r[i - 1] == rows[i];
      }
    }
  }
}
