/**
 * `accounts_lilis/permisos.py`: the `role_required` view decorator and the
 * permission table `permisos_por_rol` that templates read.
 */
module AccountsPermisos {
  import opened Web

  /** What the decorator does with a request: answer it itself, or run the view. */
  datatype Gate = Deny(response: Response) | CallView

  /**
   * `role_required(*roles)`: an anonymous user is sent to the login page and
   * an authenticated one with another role gets 403; in both cases the view
   * does not run. Authentication is tested before the role.
   */
  function RoleRequired(roles: set<Role>, user: Principal): (g: Gate)
    ensures !user.IsAuthenticated() ==> g == Deny(RedirectTo(Login))
    ensures user.IsAuthenticated() && user.rol !in roles ==> g == Deny(Forbidden)
    ensures g == CallView <==> user.HasRoleIn(roles)
  {
    if !user.IsAuthenticated() then Deny(RedirectTo(Login))
    else if user.rol !in roles then Deny(Forbidden)
    else CallView
  }

  /**
   * The decorated view's response: the gate's own answer, or exactly what
   * the view answers for the same request.
   */
  function Decorated(roles: set<Role>, user: Principal, view: Response): (r: Response)
    ensures user.HasRoleIn(roles) ==> r == view
    ensures !user.HasRoleIn(roles) ==> r == RoleRequired(roles, user).response
  {
    match RoleRequired(roles, user)
    case Deny(resp) => resp
    case CallView => view
  }

  datatype Permisos = Permisos(
    usuariosVer: bool,
    usuariosCrear: bool,
    usuariosEditar: bool,
    usuariosEliminar: bool,
    proveedoresVer: bool,
    proveedoresCrear: bool,
    proveedoresEditar: bool,
    proveedoresEliminar: bool,
    proveedoresSoloLectura: bool,
    productosVer: bool,
    productosCrear: bool,
    productosEditar: bool,
    productosEliminar: bool,
    soloLectura: bool)

  /** `permisos_por_rol`, applied to the user's role. */
  function PermisosPorRol(rol: Role): (p: Permisos)
    // user administration belongs to ADMIN alone
    ensures p.usuariosVer == p.usuariosCrear == p.usuariosEditar == p.usuariosEliminar == (rol == Admin)
    // suppliers: the three write flags agree; AUDITOR may only look
    ensures p.proveedoresCrear == p.proveedoresEditar == p.proveedoresEliminar
    ensures p.proveedoresCrear <==> rol in {Admin, OperCompras}
    ensures p.proveedoresVer <==> p.proveedoresCrear || rol == Auditor
    ensures p.proveedoresSoloLectura == p.soloLectura == (rol == Auditor)
    // products: whoever may create may edit and see; only ADMIN deletes
    ensures p.productosCrear == p.productosEditar
    ensures p.productosCrear ==> p.productosVer
    ensures p.productosEliminar <==> rol == Admin
    ensures p.productosVer <==> rol != Usuario
    // a read-only role holds no write flag
    ensures p.soloLectura ==> !p.proveedoresCrear && !p.productosCrear && !p.usuariosCrear && !p.productosEliminar
  {
    Permisos(
      usuariosVer := rol == Admin,
      usuariosCrear := rol == Admin,
      usuariosEditar := rol == Admin,
      usuariosEliminar := rol == Admin,
      proveedoresVer := rol in {Admin, OperCompras, Auditor},
      proveedoresCrear := rol in {Admin, OperCompras},
      proveedoresEditar := rol in {Admin, OperCompras},
      proveedoresEliminar := rol in {Admin, OperCompras},
      proveedoresSoloLectura := rol == Auditor,
      productosVer := rol in {Admin, OperCompras, OperInventario, OperProduccion, OperVentas, AnalistaFin, Auditor},
      productosCrear := rol in {Admin, OperCompras, OperInventario, OperVentas},
      productosEditar := rol in {Admin, OperCompras, OperInventario, OperVentas},
      productosEliminar := rol == Admin,
      soloLectura := rol == Auditor)
  }
}
