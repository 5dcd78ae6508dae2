/**
 * `inventario/views.py`: the movement listing and the creation view, which
 * appends one validated movement, stamped with the acting user, to the
 * movement table.
 */
module InventarioViews {
  import opened Wrappers
  import opened Web
  import opened InventarioForms
  import AccountsPermisos

  /** `@role_required("ADMIN", "OPER_INVENTARIO", "AUDITOR")` on the listing. */
  const ListRoles: set<Role> := {Admin, OperInventario, Auditor}

  /** `@role_required("ADMIN", "OPER_INVENTARIO")` on the creation view. */
  const CreateRoles: set<Role> := {Admin, OperInventario}

  /** An instant, for `fecha` (`timezone.now`) and `creado_en`. */
  type Timestamp = int

  /** A stored `MovimientoInventario`. */
  datatype Movement = Movement(fields: MovementFields, usuario: nat, fecha: Timestamp)

  datatype Request = GetForm | PostForm(data: MovementPost)

  /**
   * `movimientos_listar` as written: once the role check passes, the view
   * calls `permisos_por_rol(request.user.rol)`, which reads `.rol` of a
   * string and raises `AttributeError`.
   */
  function MovimientosListarAsWritten(user: Principal): (r: Response)
    ensures r == ServerError <==> user.HasRoleIn(ListRoles)
    ensures !user.IsAuthenticated() ==> r == RedirectTo(Login)
  {
    LoginRequired(user, AccountsPermisos.Decorated(ListRoles, user, ServerError))
  }

  /** The listing with `permisos_por_rol(request.user)`: it renders for the three roles. */
  function MovimientosListar(user: Principal): (r: Response)
    ensures r == Render(Web.MovimientosListar) <==> user.HasRoleIn(ListRoles)
    ensures !user.IsAuthenticated() ==> r == RedirectTo(Login)
    ensures user.IsAuthenticated() && !user.HasRoleIn(ListRoles) ==> r == Forbidden
  {
    LoginRequired(user, AccountsPermisos.Decorated(ListRoles, user, Render(Web.MovimientosListar)))
  }

  /** Every role that may create movements may list them, and AUDITOR only lists. */
  lemma CreateRolesCanList()
    ensures CreateRoles < ListRoles
    ensures Auditor in ListRoles - CreateRoles
  {
  }

  /** For an ADMIN the listing as written fails where the repaired one renders. */
  lemma ListingFailsForAdmin()
    ensures MovimientosListarAsWritten(Member(1, Admin)) == ServerError
    ensures MovimientosListar(Member(1, Admin)) == Render(Web.MovimientosListar)
  {
  }

  /**
   * `movimiento_crear`'s response as written: a valid POST redirects before
   * the form page is reached, but the form page itself calls
   * `permisos_por_rol(request.user.rol)` and raises, for a GET and for an
   * invalid POST alike.
   */
  function MovimientoCrearAsWritten(user: Principal, req: Request, today: Date): (r: Response)
    ensures !user.IsAuthenticated() ==> r == RedirectTo(Login)
    ensures user.IsAuthenticated() && !user.HasRoleIn(CreateRoles) ==> r == Forbidden
    ensures user.HasRoleIn(CreateRoles) ==>
              (r == ServerError <==> !(req.PostForm? && Validate(req.data, today).Ok?))
    ensures r == RedirectTo(Web.MovimientosListar) <==>
              user.HasRoleIn(CreateRoles) && req.PostForm? && Validate(req.data, today).Ok?
  {
    var view := if req.PostForm? && Validate(req.data, today).Ok? then RedirectTo(Web.MovimientosListar) else ServerError;
    LoginRequired(user, AccountsPermisos.Decorated(CreateRoles, user, view))
  }

  /** The movement table. */
  class Ledger {
    var movements: seq<Movement>

    constructor ()
      ensures movements == []
    {
      movements := [];
    }

    /**
     * `movimiento_crear`. A POST whose form is valid appends exactly one
     * movement: the validated fields, with `usuario` set to the acting user
     * and `fecha` to the current instant. Anything else leaves the table as
     * it was: a GET, an invalid POST, and every request the gates refuse.
     * The form page is rendered as it is with `permisos_por_rol(request.user)`.
     */
    method MovimientoCrear(user: Principal, req: Request, today: Date, now: Timestamp) returns (resp: Response)
      modifies this
      ensures !user.IsAuthenticated() ==> resp == RedirectTo(Login) && movements == old(movements)
      ensures user.IsAuthenticated() && !user.HasRoleIn(CreateRoles) ==> resp == Forbidden && movements == old(movements)
      ensures user.HasRoleIn(CreateRoles) && req.GetForm? ==> resp == Render(MovimientoForm) && movements == old(movements)
      ensures user.HasRoleIn(CreateRoles) && req.PostForm? && Validate(req.data, today).Err? ==>
                resp == Render(MovimientoForm) && movements == old(movements)
      ensures user.HasRoleIn(CreateRoles) && req.PostForm? && Validate(req.data, today).Ok? ==>
                resp == RedirectTo(Web.MovimientosListar)
                && movements == old(movements) + [Movement(Validate(req.data, today).value, user.id, now)]
      ensures movements == old(movements) || |movements| == |old(movements)| + 1
      ensures movements != old(movements) ==> user.HasRoleIn(CreateRoles) && movements[|movements| - 1].usuario == user.id
    {
      if !user.IsAuthenticated() {
        return RedirectTo(Login);
      }
      var gate := AccountsPermisos.RoleRequired(CreateRoles, user);
      if gate.Deny? {
        return gate.response;
      }
      if req.PostForm? {
        var result := Validate(req.data, today);
        if result.Ok? {
          var movimiento := Movement(result.value, user.id, now);
          movements := movements + [movimiento];
          return RedirectTo(Web.MovimientosListar);
        }
      }
      resp := Render(MovimientoForm);
    }
  }
}
