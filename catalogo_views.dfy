/**
 * `catalogo/views.py`: who may enter the product pages, the flags the
 * dashboard and the listing show, and the product table that creation,
 * editing and deletion change.
 */
module CatalogoViews {
  import opened Wrappers
  import opened Web
  import opened Tables
  import opened CatalogoForms
  import AccountsPermisos

  /** The roles `tiene_permiso_productos` lets into the product pages. */
  const ProductRoles: set<Role> := {Admin, OperInventario, OperProduccion, OperVentas, AnalistaFin, Auditor}

  /** The roles the creation and edition views let through. */
  const EditRoles: set<Role> := {Admin, OperInventario, OperVentas}

  /** `tiene_permiso_productos`. OPER_COMPRAS is not among its roles. */
  function TienePermisoProductos(user: Principal): (b: bool)
    ensures b <==> user.IsAuthenticated() && user.rol in ProductRoles
    ensures user.HasRoleIn({OperCompras, Usuario}) ==> !b
  {
    user.IsAuthenticated() && user.rol in ProductRoles
  }

  /** The three flags `mantenedores` passes to the dashboard. */
  datatype DashboardFlags = DashboardFlags(productosVer: bool, proveedoresVer: bool, usuariosVer: bool)

  function MantenedoresFlags(rol: Role): (f: DashboardFlags)
    ensures f.productosVer <==> rol in ProductRoles
    ensures f.proveedoresVer <==> rol in {Admin, OperCompras, Auditor}
    ensures f.usuariosVer <==> rol == Admin
  {
    DashboardFlags(rol in ProductRoles, rol in {Admin, OperCompras, Auditor}, rol == Admin)
  }

  /**
   * The dashboard shows the product tile to exactly the users the product
   * pages let in, and agrees with `permisos_por_rol` on suppliers and users.
   * On products the two tables differ for OPER_COMPRAS alone.
   */
  lemma DashboardMatchesGates(user: Principal)
    requires user.IsAuthenticated()
    ensures MantenedoresFlags(user.rol).productosVer == TienePermisoProductos(user)
    ensures MantenedoresFlags(user.rol).proveedoresVer == AccountsPermisos.PermisosPorRol(user.rol).proveedoresVer
    ensures MantenedoresFlags(user.rol).usuariosVer == AccountsPermisos.PermisosPorRol(user.rol).usuariosVer
    ensures MantenedoresFlags(user.rol).productosVer != AccountsPermisos.PermisosPorRol(user.rol).productosVer
            <==> user.rol == OperCompras
  {
  }

  /** `mantenedores`: any logged-in user sees the dashboard. */
  function MantenedoresView(user: Principal): (r: Response)
    ensures r == Render(Mantenedores) <==> user.IsAuthenticated()
    ensures !user.IsAuthenticated() ==> r == RedirectTo(Login)
  {
    LoginRequired(user, Render(Mantenedores))
  }

  /** The action flags the product listing passes to its template. */
  datatype ListingFlags = ListingFlags(productosCrear: bool, productosEditar: bool, productosEliminar: bool)

  function ListingFlagsFor(rol: Role): (f: ListingFlags)
    ensures f.productosCrear == f.productosEditar
    ensures f.productosCrear <==> rol in {Admin, OperCompras, OperVentas, OperInventario}
    ensures f.productosEliminar <==> rol == Admin
  {
    var edits := rol in {Admin, OperCompras, OperVentas, OperInventario};
    ListingFlags(edits, edits, rol == Admin)
  }

  /**
   * For every user who reaches the listing, the create and edit buttons
   * appear exactly when the creation and edition views would let them in.
   * The flag's extra OPER_COMPRAS is never seen, since that role cannot
   * reach the listing.
   */
  lemma ListingButtonsMatchGates(user: Principal)
    requires TienePermisoProductos(user)
    ensures ListingFlagsFor(user.rol).productosCrear <==> user.rol in EditRoles
    ensures ListingFlagsFor(user.rol).productosEliminar ==> user.rol in EditRoles
  {
  }

  /** `mostrar_todos_productos`: the six product roles see the listing; anyone else goes to the login page. */
  function MostrarTodosProductos(user: Principal): (r: Response)
    ensures r == Render(ProductosListar) <==> TienePermisoProductos(user)
    ensures r != Render(ProductosListar) ==> r == RedirectTo(Login)
  {
    UserPassesTest(TienePermisoProductos(user), LoginRequired(user, Render(ProductosListar)))
  }

  /**
   * The gate shared by `MantenedorAgregarProducto`, `crear_producto` and
   * `editar_producto`: `tiene_permiso_productos`, then `login_required`, then
   * the narrower edit roles, refused with a redirect to the listing.
   */
  function EditGate(user: Principal): (g: AccountsPermisos.Gate)
    ensures g.CallView? <==> user.HasRoleIn(EditRoles)
    ensures !TienePermisoProductos(user) ==> g == AccountsPermisos.Deny(RedirectTo(Login))
    ensures TienePermisoProductos(user) && user.rol !in EditRoles ==> g == AccountsPermisos.Deny(RedirectTo(ProductosListar))
  {
    if !TienePermisoProductos(user) then AccountsPermisos.Deny(RedirectTo(Login))
    else if user.rol !in EditRoles then AccountsPermisos.Deny(RedirectTo(ProductosListar))
    else AccountsPermisos.CallView
  }

  /** `MantenedorAgregarProducto`: the empty creation form, behind the edit gate. */
  function MantenedorAgregarProducto(user: Principal): (r: Response)
    ensures r == Render(ProductoAgregar) <==> user.HasRoleIn(EditRoles)
    ensures !TienePermisoProductos(user) ==> r == RedirectTo(Login)
    ensures TienePermisoProductos(user) && !user.HasRoleIn(EditRoles) ==> r == RedirectTo(ProductosListar)
  {
    match EditGate(user)
    case Deny(resp) => resp
    case CallView => Render(ProductoAgregar)
  }

  /** A stored `Producto`. */
  datatype Product = Product(id: nat, fields: ProductFields)

  datatype Request = GetForm | PostForm(data: ProductPost)

  /** The `sku` column, keyed by product id. */
  function SkuColumn(rows: seq<Product>): (r: seq<Keyed<string>>)
    ensures |r| == |rows|
    ensures forall i :: 0 <= i < |rows| ==> r[i] == Keyed(rows[i].id, rows[i].fields.sku)
  {
    seq(|rows|, i requires 0 <= i < |rows| => Keyed(rows[i].id, rows[i].fields.sku))
  }

  /** The `ean_upc` column, keyed by product id. */
  function EanColumn(rows: seq<Product>): (r: seq<Keyed<string>>)
    ensures |r| == |rows|
    ensures forall i :: 0 <= i < |rows| ==> r[i] == Keyed(rows[i].id, rows[i].fields.eanUpc)
  {
    seq(|rows|, i requires 0 <= i < |rows| => Keyed(rows[i].id, rows[i].fields.eanUpc))
  }

  /** The position of the product with primary key `id`, if there is one. */
  function IndexOfId(rows: seq<Product>, id: nat): (r: Option<nat>)
    ensures r.None? <==> forall i :: 0 <= i < |rows| ==> rows[i].id != id
    ensures r.Some? ==> r.value < |rows| && rows[r.value].id == id
  {
    if rows == [] then None
    else if rows[0].id == id then Some(0)
    else match IndexOfId(rows[1..], id)
      case None => None
      case Some(k) => Some(k + 1)
  }

  /** Primary keys are distinct. */
  predicate DistinctIds(rows: seq<Product>) {
    forall i, j :: 0 <= i < j < |rows| ==> rows[i].id != rows[j].id
  }

  /**
   * `form.is_valid()` against the table `rows`: the form's own checks, then
   * `validate_unique`, with the blank EAN never clashing (`ValidateUnique`).
   */
  function FormOutcome(rows: seq<Product>, data: ProductPost, editing: Option<nat>): (r: Option<ProductFields>)
    ensures r.Some? <==> ValidateProduct(data).Ok?
                         && !TakenByOther(SkuColumn(rows), ValidateProduct(data).value.sku, editing)
                         && (ValidateProduct(data).value.eanUpc == []
                             || !TakenByOther(EanColumn(rows), ValidateProduct(data).value.eanUpc, editing))
    ensures r.Some? ==> r.value == ValidateProduct(data).value
  {
    match ValidateProduct(data)
    case Err(_) => None
    case Ok(f) => if ValidateUnique(f, SkuColumn(rows), EanColumn(rows), editing) == {} then Some(f) else None
  }

  /** The same outcome with `validate_unique` as written, where a blank EAN is looked up like any code. */
  function FormOutcomeAsWritten(rows: seq<Product>, data: ProductPost, editing: Option<nat>): (r: Option<ProductFields>)
    ensures r.Some? <==> ValidateProduct(data).Ok?
                         && !TakenByOther(SkuColumn(rows), ValidateProduct(data).value.sku, editing)
                         && !TakenByOther(EanColumn(rows), ValidateProduct(data).value.eanUpc, editing)
    ensures r.Some? ==> r.value == ValidateProduct(data).value
  {
    match ValidateProduct(data)
    case Err(_) => None
    case Ok(f) => if ValidateUniqueAsWritten(f, SkuColumn(rows), EanColumn(rows), editing) == {} then Some(f) else None
  }

  /**
   * The two outcomes differ only on a blank EAN: with a code they agree, and
   * a blank one that another row also has blank is saved by the corrected
   * check alone.
   */
  lemma FormOutcomesDifferOnBlankEan(rows: seq<Product>, data: ProductPost, editing: Option<nat>)
    ensures ValidateProduct(data).Ok? && ValidateProduct(data).value.eanUpc != [] ==>
              FormOutcomeAsWritten(rows, data, editing) == FormOutcome(rows, data, editing)
    ensures FormOutcomeAsWritten(rows, data, editing).Some? ==> FormOutcome(rows, data, editing).Some?
    ensures ValidateProduct(data).Ok? && ValidateProduct(data).value.eanUpc == [] && TakenByOther(EanColumn(rows), [], editing) ==>
              FormOutcomeAsWritten(rows, data, editing).None?
  {
  }

  /**
   * What a saved product satisfies: the form accepted it, so every field
   * bound and the stock rule hold, and no other row holds its SKU or its
   * (non-blank) EAN. With a code, the check as written saves it too.
   */
  lemma SavedProductIsValid(rows: seq<Product>, data: ProductPost, editing: Option<nat>)
    requires FormOutcome(rows, data, editing).Some?
    ensures ValidateProduct(data).Ok? && FormOutcome(rows, data, editing).value == ValidateProduct(data).value
    ensures WithinBounds(FormOutcome(rows, data, editing).value)
    ensures !TakenByOther(SkuColumn(rows), FormOutcome(rows, data, editing).value.sku, editing)
    ensures var f := FormOutcome(rows, data, editing).value;
            f.eanUpc != [] ==> !TakenByOther(EanColumn(rows), f.eanUpc, editing)
                               && FormOutcomeAsWritten(rows, data, editing) == FormOutcome(rows, data, editing)
  {
  }

  /** A form the field checks refuse is refused whatever the table holds. */
  lemma InvalidFormNeverSaved(rows: seq<Product>, data: ProductPost, editing: Option<nat>)
    requires ValidateProduct(data).Err?
    ensures FormOutcome(rows, data, editing).None?
  {
  }

  /** Every key is below `bound`. */
  predicate KeysBelow(rows: seq<Product>, bound: nat) {
    forall i :: 0 <= i < |rows| ==> rows[i].id < bound
  }

  /** Appending a row under the key bound keeps the keys distinct and below the next bound. */
  lemma AppendFresh(rows: seq<Product>, bound: nat, f: ProductFields)
    requires DistinctIds(rows) && KeysBelow(rows, bound)
    ensures DistinctIds(rows + [Product(bound, f)]) && KeysBelow(rows + [Product(bound, f)], bound + 1)
  {
  }

  /** Replacing a row by one with the same key keeps the keys as they were. */
  lemma ReplaceSameKey(rows: seq<Product>, bound: nat, k: nat, f: ProductFields)
    requires DistinctIds(rows) && KeysBelow(rows, bound) && k < |rows|
    ensures DistinctIds(rows[k := Product(rows[k].id, f)]) && KeysBelow(rows[k := Product(rows[k].id, f)], bound)
  {
  }

  /** Removing a row keeps the remaining keys distinct and below the bound. */
  lemma RemoveKeepsKeys(rows: seq<Product>, bound: nat, k: nat)
    requires DistinctIds(rows) && KeysBelow(rows, bound) && k < |rows|
    ensures DistinctIds(rows[..k] + rows[k + 1..]) && KeysBelow(rows[..k] + rows[k + 1..], bound)
    ensures IndexOfId(rows[..k] + rows[k + 1..], rows[k].id).None?
  {
    var r := rows[..k] + rows[k + 1..];
    forall i, j | 0 <= i < j < |r|
      ensures r[i].id != r[j].id
    {
      var i' := if i < k then i else i + 1;
      var j' := if j < k then j else j + 1;
      assert r[i] == rows[i'] && r[j] == rows[j'];
    }
    forall i | 0 <= i < |r|
      ensures r[i].id != rows[k].id
    {
      var i' := if i < k then i else i + 1;
      assert r[i] == rows[i'];
    }
  }

  /** No two products share a SKU, nor a non-blank EAN. */
  predicate DistinctCodes(rows: seq<Product>) {
    forall i, j :: 0 <= i < |rows| && 0 <= j < |rows| && i != j ==>
      rows[i].fields.sku != rows[j].fields.sku
      && (rows[i].fields.eanUpc != [] ==> rows[i].fields.eanUpc != rows[j].fields.eanUpc)
  }

  /** A product whose codes no row other than `editing` holds clashes with none of those rows. */
  lemma UntakenCodesDiffer(rows: seq<Product>, f: ProductFields, editing: Option<nat>, i: nat)
    requires !TakenByOther(SkuColumn(rows), f.sku, editing)
    requires f.eanUpc == [] || !TakenByOther(EanColumn(rows), f.eanUpc, editing)
    requires i < |rows| && editing != Some(rows[i].id)
    ensures rows[i].fields.sku != f.sku
    ensures rows[i].fields.eanUpc != [] ==> rows[i].fields.eanUpc != f.eanUpc
  {
    assert SkuColumn(rows)[i] == Keyed(rows[i].id, rows[i].fields.sku);
    assert EanColumn(rows)[i] == Keyed(rows[i].id, rows[i].fields.eanUpc);
  }

  /** Appending a product the uniqueness checks accepted keeps the codes distinct. */
  lemma AppendKeepsCodes(rows: seq<Product>, id: nat, f: ProductFields)
    requires DistinctCodes(rows)
    requires !TakenByOther(SkuColumn(rows), f.sku, None)
    requires f.eanUpc == [] || !TakenByOther(EanColumn(rows), f.eanUpc, None)
    ensures DistinctCodes(rows + [Product(id, f)])
  {
    var r := rows + [Product(id, f)];
    forall i | 0 <= i < |rows|
      ensures r[i].fields.sku != f.sku && (r[i].fields.eanUpc != [] ==> r[i].fields.eanUpc != f.eanUpc)
    {
      UntakenCodesDiffer(rows, f, None, i);
    }
  }

  /** Replacing a product by fields the uniqueness checks accepted for it keeps the codes distinct. */
  lemma ReplaceKeepsCodes(rows: seq<Product>, k: nat, f: ProductFields)
    requires DistinctIds(rows) && DistinctCodes(rows) && k < |rows|
    requires !TakenByOther(SkuColumn(rows), f.sku, Some(rows[k].id))
    requires f.eanUpc == [] || !TakenByOther(EanColumn(rows), f.eanUpc, Some(rows[k].id))
    ensures DistinctCodes(rows[k := Product(rows[k].id, f)])
  {
    var r := rows[k := Product(rows[k].id, f)];
    forall i | 0 <= i < |rows| && i != k
      ensures r[i].fields.sku != f.sku && (r[i].fields.eanUpc != [] ==> r[i].fields.eanUpc != f.eanUpc)
    {
      assert rows[i].id != rows[k].id by {
        if i < k { assert rows[i].id != rows[k].id; } else { assert rows[k].id != rows[i].id; }
      }
      UntakenCodesDiffer(rows, f, Some(rows[k].id), i);
    }
  }

  /** Removing a product keeps the codes of the others distinct. */
  lemma RemoveKeepsCodes(rows: seq<Product>, k: nat)
    requires DistinctCodes(rows) && k < |rows|
    ensures DistinctCodes(rows[..k] + rows[k + 1..])
  {
    var r := rows[..k] + rows[k + 1..];
    forall i, j | 0 <= i < |r| && 0 <= j < |r| && i != j
      ensures r[i].fields.sku != r[j].fields.sku
              && (r[i].fields.eanUpc != [] ==> r[i].fields.eanUpc != r[j].fields.eanUpc)
    {
      var i' := if i < k then i else i + 1;
      var j' := if j < k then j else j + 1;
      assert r[i] == rows[i'] && r[j] == rows[j'];
    }
  }

  /** The product table. */
  class ProductStore {
    var products: seq<Product>
    /** The primary key the next saved product receives. */
    var nextId: nat

    ghost predicate Valid()
      reads this
    {
      DistinctIds(products) && KeysBelow(products, nextId) && DistinctCodes(products)
    }

    constructor ()
      ensures Valid() && products == [] && nextId == 1
    {
      products := [];
      nextId := 1;
    }

    /**
     * `crear_producto`. A valid POST appends one product under a fresh key;
     * a GET, an invalid POST and every refused user leave the table as it was.
     */
    method CrearProducto(user: Principal, req: Request) returns (resp: Response)
      requires Valid()
      modifies this
      ensures Valid()
      ensures !user.HasRoleIn(EditRoles) ==> resp == EditGate(user).response && unchanged(this)
      ensures user.HasRoleIn(EditRoles) && (req.GetForm? || old(FormOutcome(products, req.data, None)).None?) ==>
                resp == Render(ProductoAgregar) && unchanged(this)
      ensures user.HasRoleIn(EditRoles) && req.PostForm? && old(FormOutcome(products, req.data, None)).Some? ==>
                resp == RedirectTo(ProductosListar)
                && products == old(products) + [Product(old(nextId), old(FormOutcome(products, req.data, None)).value)]
                && nextId == old(nextId) + 1
    {
      var gate := EditGate(user);
      if gate.Deny? {
        return gate.response;
      }
      if req.PostForm? {
        var outcome := FormOutcome(products, req.data, None);
        if outcome.Some? {
          SavedProductIsValid(products, req.data, None);
          Insert(outcome.value);
          return RedirectTo(ProductosListar);
        }
      }
      resp := Render(ProductoAgregar);
    }

    /** `form.save()` on a new product: appended under the next key. */
    method Insert(f: ProductFields)
      requires Valid()
      requires !TakenByOther(SkuColumn(products), f.sku, None)
      requires f.eanUpc == [] || !TakenByOther(EanColumn(products), f.eanUpc, None)
      modifies this
      ensures Valid()
      ensures products == old(products) + [Product(old(nextId), f)] && nextId == old(nextId) + 1
    {
      AppendFresh(products, nextId, f);
      AppendKeepsCodes(products, nextId, f);
      products := products + [Product(nextId, f)];
      nextId := nextId + 1;
    }

    /**
     * `editar_producto`. A valid POST replaces the fields of the product with
     * that key and keeps its key and position; its own SKU and EAN do not
     * count as taken. A missing key answers 404.
     */
    method EditarProducto(user: Principal, id: nat, req: Request) returns (resp: Response)
      requires Valid()
      modifies this
      ensures Valid()
      ensures nextId == old(nextId) && |products| == |old(products)|
      ensures !user.HasRoleIn(EditRoles) ==> resp == EditGate(user).response && unchanged(this)
      ensures user.HasRoleIn(EditRoles) && old(IndexOfId(products, id)).None? ==> resp == NotFound && unchanged(this)
      ensures user.HasRoleIn(EditRoles) && old(IndexOfId(products, id)).Some?
              && (req.GetForm? || old(FormOutcome(products, req.data, Some(id))).None?) ==>
                resp == Render(ProductoEditar) && unchanged(this)
      ensures user.HasRoleIn(EditRoles) && old(IndexOfId(products, id)).Some?
              && req.PostForm? && old(FormOutcome(products, req.data, Some(id))).Some? ==>
                resp == RedirectTo(ProductosListar)
                && products == old(products)[old(IndexOfId(products, id)).value :=
                                             Product(id, old(FormOutcome(products, req.data, Some(id))).value)]
    {
      var gate := EditGate(user);
      if gate.Deny? {
        return gate.response;
      }
      var found := IndexOfId(products, id);
      if found.None? {
        return NotFound;
      }
      if req.PostForm? {
        var outcome := FormOutcome(products, req.data, Some(id));
        if outcome.Some? {
          SavedProductIsValid(products, req.data, Some(id));
          Replace(found.value, outcome.value);
          return RedirectTo(ProductosListar);
        }
      }
      resp := Render(ProductoEditar);
    }

    /** `form.save()` on an edited row: row `k` takes `f` under its own key. */
    method Replace(k: nat, f: ProductFields)
      requires Valid() && k < |products|
      requires !TakenByOther(SkuColumn(products), f.sku, Some(products[k].id))
      requires f.eanUpc == [] || !TakenByOther(EanColumn(products), f.eanUpc, Some(products[k].id))
      modifies this
      ensures Valid() && nextId == old(nextId)
      ensures products == old(products)[k := Product(old(products)[k].id, f)]
    {
      ReplaceSameKey(products, nextId, k, f);
      ReplaceKeepsCodes(products, k, f);
      products := products[k := Product(products[k].id, f)];
    }

    /**
     * `eliminar_producto`, behind the corrected ADMIN gate `AdminLambda`. A POST deletes
     * the product unless some movement still refers to it (`PROTECT`
     * raises); a GET shows the confirmation and deletes nothing.
     */
    method EliminarProducto(user: Principal, id: nat, m: Method, inUse: set<nat>) returns (resp: Response)
      requires Valid()
      modifies this
      ensures Valid()
      ensures nextId == old(nextId)
      ensures !user.HasRoleIn({Admin}) ==> resp == RedirectTo(Login) && unchanged(this)
      ensures user.HasRoleIn({Admin}) && old(IndexOfId(products, id)).None? ==> resp == NotFound && unchanged(this)
      ensures user.HasRoleIn({Admin}) && old(IndexOfId(products, id)).Some? && m == Get ==>
                resp == Render(ConfirmarEliminacion) && unchanged(this)
      ensures user.HasRoleIn({Admin}) && old(IndexOfId(products, id)).Some? && m == Post && id in inUse ==>
                resp == ServerError && unchanged(this)
      ensures user.HasRoleIn({Admin}) && old(IndexOfId(products, id)).Some? && m == Post && id !in inUse ==>
                resp == RedirectTo(ProductosListar)
                && (var k := old(IndexOfId(products, id)).value;
                    products == old(products)[..k] + old(products)[k + 1..])
                && IndexOfId(products, id).None?
      ensures forall p :: p in products ==> p in old(products)
    {
      if !user.HasRoleIn({Admin}) {
        return RedirectTo(Login);
      }
      var found := IndexOfId(products, id);
      if found.None? {
        return NotFound;
      }
      if m == Get {
        return Render(ConfirmarEliminacion);
      }
      if id in inUse {
        return ServerError;
      }
      var k := found.value;
      RemoveKeepsKeys(products, nextId, k);
      RemoveKeepsCodes(products, k);
      products := products[..k] + products[k + 1..];
      resp := RedirectTo(ProductosListar);
    }
  }
}
