/**
 * What every view sees of a request and what it answers: the acting user
 * (`request.user`), the HTTP method, and the kind of response.
 */
module Web {

  /** The role names the views and permission tables test `user.rol` against. */
  datatype Role =
    | Admin
    | OperCompras
    | OperInventario
    | OperProduccion
    | OperVentas
    | AnalistaFin
    | Auditor
    | Usuario

  /**
   * `request.user`: Django's anonymous user, which is not authenticated and
   * has no `rol` attribute, or a stored `Usuario` with its id and role.
   */
  datatype Principal = Anonymous | Member(id: nat, rol: Role) {
    predicate IsAuthenticated() { Member? }

    /** `request.user.rol in roles`, for an authenticated user. */
    predicate HasRoleIn(roles: set<Role>) { Member? && rol in roles }
  }

  datatype Method = Get | Post

  /** The pages a response renders or redirects to. */
  datatype Page =
    | Login
    | Registro
    | Landing
    | Mantenedores
    | CambiarPasswordObligatorio
    | PasswordResetComplete
    | MovimientosListar
    | MovimientoForm
    | ProductosListar
    | ProductoAgregar
    | ProductoEditar
    | ConfirmarEliminacion
    | ProveedoresListar
    | UsuarioListar
    | UsuarioAgregar
    | UsuarioEditar

  datatype Response =
    | RedirectTo(target: Page)
    | Render(page: Page)
    | Forbidden
    | NotFound
    | JsonOk
    | Spreadsheet
    /** An exception escaped the view (HTTP 500). */
    | ServerError

  /** `login_required`: an anonymous user is sent to the login page, anyone else reaches the view. */
  function LoginRequired(user: Principal, view: Response): (r: Response)
    ensures !user.IsAuthenticated() ==> r == RedirectTo(Login)
    ensures user.IsAuthenticated() ==> r == view
  {
    if user.IsAuthenticated() then view else RedirectTo(Login)
  }

  /**
   * `user_passes_test(test)`: the view runs when the test holds; otherwise
   * the user, logged in or not, is sent to the login page.
   */
  function UserPassesTest(passes: bool, view: Response): (r: Response)
    ensures passes ==> r == view
    ensures !passes ==> r == RedirectTo(Login)
  {
    if passes then view else RedirectTo(Login)
  }

  /**
   * `user_passes_test(lambda u: u.rol == "ADMIN")` as written. The anonymous
   * user has no `rol`, so for it the test itself raises.
   */
  function AdminLambdaAsWritten(user: Principal, view: Response): (r: Response)
    ensures !user.IsAuthenticated() ==> r == ServerError
    ensures user.IsAuthenticated() ==> r == UserPassesTest(user.rol == Admin, view)
  {
    match user
    case Anonymous => ServerError
    case Member(_, rol) => UserPassesTest(rol == Admin, view)
  }

  /** The same gate with the test `u.is_authenticated and u.rol == "ADMIN"`. */
  function AdminLambda(user: Principal, view: Response): (r: Response)
    ensures user.HasRoleIn({Admin}) ==> r == view
    ensures !user.HasRoleIn({Admin}) ==> r == RedirectTo(Login)
    ensures user.IsAuthenticated() ==> r == AdminLambdaAsWritten(user, view)
  {
    UserPassesTest(user.HasRoleIn({Admin}), view)
  }

  /** An anonymous request fails behind the gate as written and reaches the login page behind the corrected one. */
  lemma AnonymousAdminTest(view: Response)
    ensures AdminLambdaAsWritten(Anonymous, view) == ServerError
    ensures AdminLambda(Anonymous, view) == RedirectTo(Login)
  {
  }
}
