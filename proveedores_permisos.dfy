/**
 * `proveedores/permisos.py`: the supplier flags `permisos_proveedores_context`
 * gives templates. They are read from `getattr(user, "rol", None)`.
 */
module ProveedoresPermisos {
  import opened Web
  import AccountsPermisos

  datatype Flags = Flags(listar: bool, crear: bool, editar: bool, eliminar: bool)

  /** `permisos_proveedores_context`. A user without `rol` matches no role. */
  function PermisosProveedoresContext(user: Principal): (f: Flags)
    ensures !user.IsAuthenticated() ==> f == Flags(false, false, false, false)
    ensures f.listar <==> user.HasRoleIn({Admin, OperCompras, Auditor})
    ensures f.crear == f.editar
    ensures f.crear <==> user.HasRoleIn({Admin, OperCompras})
    ensures f.eliminar <==> user.HasRoleIn({Admin})
    // each flag implies the weaker one
    ensures f.eliminar ==> f.editar
    ensures f.editar ==> f.listar
  {
    match user
    case Anonymous => Flags(false, false, false, false)
    case Member(_, rol) =>
      Flags(rol in {Admin, OperCompras, Auditor}, rol in {Admin, OperCompras}, rol in {Admin, OperCompras}, rol == Admin)
  }

  /**
   * The two supplier matrices agree on listing, creating and editing, and
   * differ on deleting for exactly one role: `permisos_por_rol` lets
   * OPER_COMPRAS delete, this table does not.
   */
  lemma MatricesDisagreeOnDelete(id: nat, rol: Role)
    ensures PermisosProveedoresContext(Member(id, rol)).listar == AccountsPermisos.PermisosPorRol(rol).proveedoresVer
    ensures PermisosProveedoresContext(Member(id, rol)).crear == AccountsPermisos.PermisosPorRol(rol).proveedoresCrear
    ensures PermisosProveedoresContext(Member(id, rol)).eliminar != AccountsPermisos.PermisosPorRol(rol).proveedoresEliminar
            <==> rol == OperCompras
  {
  }
}
