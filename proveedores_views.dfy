/**
 * `proveedores/views.py`: the supplier gate, the search the listing and the
 * export share, the spreadsheet the export writes with its column widths,
 * and deletion from the supplier table.
 */
module ProveedoresViews {
  import opened Wrappers
  import opened Web
  import opened Text
  import opened Ordering
  import ProveedoresPermisos
  import ProveedoresForms

  /** `tiene_permiso_proveedores`. */
  function TienePermisoProveedores(user: Principal): (b: bool)
    ensures b <==> user.HasRoleIn({Admin, OperCompras})
  {
    user.IsAuthenticated() && user.rol in {Admin, OperCompras}
  }

  /**
   * The views let in fewer roles than the template flags promise: AUDITOR
   * is shown the supplier listing flag but is sent to the login page.
   */
  lemma AuditorListedButRefused(id: nat)
    ensures ProveedoresPermisos.PermisosProveedoresContext(Member(id, Auditor)).listar
    ensures !TienePermisoProveedores(Member(id, Auditor))
    ensures forall user :: TienePermisoProveedores(user) ==> ProveedoresPermisos.PermisosProveedoresContext(user).listar
  {
  }

  /** `Proveedor.estado`. */
  datatype Estado = Activo | Bloqueado

  /** `get_estado_display()`. */
  function EstadoDisplay(e: Estado): string {
    match e
    case Activo => "Activo"
    case Bloqueado => "Bloqueado"
  }

  /** A stored `Proveedor`, with the columns the search and the export read. */
  datatype Supplier = Supplier(
    id: nat,
    rutNif: string,
    razonSocial: string,
    nombreFantasia: Option<string>,
    email: string,
    telefono: Option<string>,
    sitioWeb: Option<string>,
    direccion: Option<string>,
    ciudad: Option<string>,
    division: Option<nat>,
    condicionesPago: string,
    moneda: string,
    estado: Estado)

  /**
   * `Q(razon_social__icontains=q) | Q(rut_nif__icontains=q) |
   * Q(email__icontains=q) | Q(ciudad__icontains=q)`; a `NULL` city matches
   * nothing.
   */
  predicate Matches(p: Supplier, q: string) {
    || ContainsIgnoreCase(p.razonSocial, q)
    || ContainsIgnoreCase(p.rutNif, q)
    || ContainsIgnoreCase(p.email, q)
    || (p.ciudad.Some? && ContainsIgnoreCase(p.ciudad.value, q))
  }

  /**
   * The supplier list both `mostrar_todos_proveedores` and
   * `exportar_proveedores_excel` build from `request.GET.get("q", "")`:
   * every supplier ordered by `razon_social`, narrowed by the stripped `q`
   * when anything is left of it.
   */
  function Search(suppliers: seq<Supplier>, rawQ: string): (r: seq<Supplier>)
    ensures SortedBy(r, (p: Supplier) => p.razonSocial)
    ensures Strip(rawQ) == [] ==> |r| == |suppliers| && multiset(r) == multiset(suppliers)
    ensures forall p :: p in r <==> p in suppliers && (Strip(rawQ) == [] || Matches(p, Strip(rawQ)))
    ensures forall p :: multiset(r)[p] == if Strip(rawQ) == [] || Matches(p, Strip(rawQ)) then multiset(suppliers)[p] else 0
  {
    var q := Strip(rawQ);
    var key := (p: Supplier) => p.razonSocial;
    var ordered := SortBy(suppliers, key);
    SortByMembers(suppliers, key);
    if q == [] then ordered
    else
      var keep := (p: Supplier) => Matches(p, q);
      FilterKeepsSorted(ordered, keep, key);
      Filter(ordered, keep)
  }

  /** A query that is only whitespace lists every supplier. */
  lemma BlankQueryListsAll(suppliers: seq<Supplier>, rawQ: string)
    requires forall i :: 0 <= i < |rawQ| ==> IsSpace(rawQ[i])
    ensures forall p :: p in Search(suppliers, rawQ) <==> p in suppliers
  {
  }

  /** Searching for a supplier's own name always finds it. */
  lemma SearchFindsOwnName(suppliers: seq<Supplier>, p: Supplier)
    requires p in suppliers
    requires Strip(p.razonSocial) == p.razonSocial
    ensures p in Search(suppliers, p.razonSocial)
  {
    ContainsIgnoreCaseReflexive(p.razonSocial);
  }

  /** `mostrar_todos_proveedores`: the listing is rendered for ADMIN and OPER_COMPRAS only. */
  function MostrarTodosProveedores(user: Principal): (r: Response)
    ensures r == Render(ProveedoresListar) <==> TienePermisoProveedores(user)
    ensures r != Render(ProveedoresListar) ==> r == RedirectTo(Login)
  {
    UserPassesTest(TienePermisoProveedores(user), LoginRequired(user, Render(ProveedoresListar)))
  }

  /** `exportar_proveedores_excel`'s gate: the spreadsheet goes to the same two roles. */
  function ExportarGate(user: Principal): (r: Response)
    ensures r == Spreadsheet <==> TienePermisoProveedores(user)
    ensures r != Spreadsheet ==> r == RedirectTo(Login)
  {
    UserPassesTest(TienePermisoProveedores(user), LoginRequired(user, Spreadsheet))
  }

  /** The header row of the export. */
  const Headers: seq<string> := [
    "RUT/NIF", "Razón Social", "Nombre Fantasía",
    "Email", "Teléfono", "Ciudad", "Región",
    "Dirección", "Sitio Web", "Moneda", "Condiciones Pago", "Estado"]

  /** The export has twelve columns. */
  const ColumnCount: nat := 12

  /** The column `Región` is the seventh. */
  const RegionColumn: nat := 6

  /** `(value or "")` on a nullable text column. */
  function OrBlank(value: Option<string>): string {
    if value.Some? then value.value else ""
  }

  /**
   * One data row as written. `Proveedor` has no `region` attribute, so
   * `getattr(p, "region", None)` is always `None` and the `Región` cell is
   * always blank.
   */
  function ExportRowAsWritten(p: Supplier): (row: seq<string>)
    ensures |row| == ColumnCount
    ensures row[RegionColumn] == ""
  {
    [p.rutNif, p.razonSocial, OrBlank(p.nombreFantasia), p.email, OrBlank(p.telefono),
     OrBlank(p.ciudad), "", OrBlank(p.direccion), OrBlank(p.sitioWeb), p.moneda,
     p.condicionesPago, EstadoDisplay(p.estado)]
  }

  /**
   * The name of the division with key `id`: the first one listed under that
   * key, or blank when the key is unset or no division has it.
   */
  function DivisionName(divisions: seq<ProveedoresForms.Division>, id: Option<nat>): (name: string)
    ensures id.None? ==> name == ""
    ensures id.Some? && (forall d :: d in divisions ==> d.id != id.value) ==> name == ""
    ensures id.Some? && (exists d :: d in divisions && d.id == id.value) ==>
              name == divisions[ProveedoresForms.FirstWithId(divisions, id.value)].nombre
    ensures name != "" ==> exists d :: d in divisions && Some(d.id) == id && d.nombre == name
  {
    if id.None? then ""
    else
      var k := ProveedoresForms.FirstWithId(divisions, id.value);
      if k < |divisions| then divisions[k].nombre else ""
  }

  /** One data row with `Región` read from the supplier's `division`, as the header intends. */
  function ExportRow(p: Supplier, divisions: seq<ProveedoresForms.Division>): (row: seq<string>)
    ensures |row| == ColumnCount
    ensures row[RegionColumn] == DivisionName(divisions, p.division)
    ensures forall c :: 0 <= c < ColumnCount && c != RegionColumn ==> row[c] == ExportRowAsWritten(p)[c]
  {
    ExportRowAsWritten(p)[RegionColumn := DivisionName(divisions, p.division)]
  }

  /** A supplier whose division is stored loses its region in the export as written. */
  lemma RegionLostAsWritten(p: Supplier, d: ProveedoresForms.Division)
    requires p.division == Some(d.id) && d.nombre != ""
    ensures ExportRowAsWritten(p)[RegionColumn] == ""
    ensures ExportRow(p, [d])[RegionColumn] == d.nombre
  {
  }

  /** The data rows, one per listed supplier, in listing order. */
  function ExportRows(ps: seq<Supplier>, divisions: seq<ProveedoresForms.Division>): (rows: seq<seq<string>>)
    ensures |rows| == |ps|
    ensures forall i :: 0 <= i < |ps| ==> rows[i] == ExportRow(ps[i], divisions)
  {
    if ps == [] then [] else [ExportRow(ps[0], divisions)] + ExportRows(ps[1..], divisions)
  }

  /** The whole sheet for the listed suppliers `qs`: the header, then one row per supplier. */
  function ExportSheet(qs: seq<Supplier>, divisions: seq<ProveedoresForms.Division>): (sheet: seq<seq<string>>)
    ensures |sheet| == 1 + |qs|
    ensures sheet[0] == Headers
    ensures forall i :: 0 <= i < |qs| ==> sheet[i + 1] == ExportRow(qs[i], divisions)
    ensures Rectangular(sheet)
  {
    var rows := ExportRows(qs, divisions);
    var sheet := [Headers] + rows;
    assert forall i :: 0 <= i < |rows| ==> sheet[i + 1] == rows[i];
    sheet
  }

  function Max(a: int, b: int): int { if a >= b then a else b }

  function Min(a: int, b: int): int { if a <= b then a else b }

  /** Every row has more than `c` cells. */
  predicate HasColumn(sheet: seq<seq<string>>, c: nat) {
    forall r :: 0 <= r < |sheet| ==> c < |sheet[r]|
  }

  /** The longest text in column `c` over the first `n` rows, starting from 0. */
  function LongestCell(sheet: seq<seq<string>>, c: nat, n: nat): (len: nat)
    requires n <= |sheet| && HasColumn(sheet, c)
    ensures forall r :: 0 <= r < n ==> |sheet[r][c]| <= len
    ensures n == 0 ==> len == 0
    ensures n > 0 ==> exists r :: 0 <= r < n && |sheet[r][c]| == len
  {
    if n == 0 then 0 else Max(LongestCell(sheet, c, n - 1), |sheet[n - 1][c]|)
  }

  /**
   * The width the export gives column `c`: the longest cell text over every
   * row, plus two, capped at 45.
   */
  function ColumnWidth(sheet: seq<seq<string>>, c: nat): (w: int)
    requires HasColumn(sheet, c)
    ensures 2 <= w <= 45
    ensures forall r :: 0 <= r < |sheet| ==> w >= Min(|sheet[r][c]| + 2, 45)
    ensures |sheet| == 0 ==> w == 2
    ensures |sheet| > 0 && w < 45 ==> exists r :: 0 <= r < |sheet| && w == |sheet[r][c]| + 2
    ensures w == 45 ==> exists r :: 0 <= r < |sheet| && |sheet[r][c]| + 2 >= 45
  {
    Min(LongestCell(sheet, c, |sheet|) + 2, 45)
  }

  /** A sheet whose rows all have the export's twelve cells. */
  predicate Rectangular(sheet: seq<seq<string>>) {
    forall r :: 0 <= r < |sheet| ==> |sheet[r]| == ColumnCount
  }

  lemma RectangularHasColumns(sheet: seq<seq<string>>)
    requires Rectangular(sheet)
    ensures forall c :: 0 <= c < ColumnCount ==> HasColumn(sheet, c)
  {
  }

  /**
   * On a sheet headed by `Headers` no column is narrower than its header
   * needs: even an export with no supplier has widths of at least seven.
   */
  lemma WidthsCoverHeaders(sheet: seq<seq<string>>, c: nat)
    requires |sheet| > 0 && sheet[0] == Headers && Rectangular(sheet) && c < ColumnCount
    ensures HasColumn(sheet, c)
    ensures 7 <= ColumnWidth(sheet, c) <= 45
    ensures ColumnWidth(sheet, c) >= |Headers[c]| + 2
  {
    assert 5 <= |Headers[c]| <= 16;
  }

  /** The openpyxl worksheet: the appended rows and the column widths set so far. */
  class Worksheet {
    var rows: seq<seq<string>>
    var widths: seq<int>

    constructor ()
      ensures rows == [] && widths == []
    {
      rows := [];
      widths := [];
    }

    /** `ws.append(row)`. */
    method Append(row: seq<string>)
      modifies this
      ensures rows == old(rows) + [row] && widths == old(widths)
    {
      rows := rows + [row];
    }

    /**
     * The width loop: for each column, the longest cell text over every row,
     * plus two, capped at 45. Nothing else changes.
     */
    method SetColumnWidths(n: nat)
      requires forall c :: 0 <= c < n ==> HasColumn(rows, c)
      modifies this
      ensures rows == old(rows)
      ensures |widths| == n
      ensures forall c :: 0 <= c < n ==> widths[c] == ColumnWidth(rows, c)
    {
      var sheet := rows;
      var result: seq<int> := [];
      var c := 0;
      while c < n
        invariant 0 <= c <= n && |result| == c
        invariant forall k :: 0 <= k < c ==> result[k] == ColumnWidth(sheet, k)
      {
        var maxLen := 0;
        var r := 0;
        while r < |sheet|
          invariant 0 <= r <= |sheet|
          invariant maxLen == LongestCell(sheet, c, r)
        {
          maxLen := Max(maxLen, |sheet[r][c]|);
          r := r + 1;
        }
        result := result + [Min(maxLen + 2, 45)];
        c := c + 1;
      }
      widths := result;
    }
  }

  /**
   * The body of `exportar_proveedores_excel` once the gate has let the user
   * in: the header, one row per listed supplier, then the widths.
   */
  method ExportarProveedoresExcel(suppliers: seq<Supplier>, rawQ: string, divisions: seq<ProveedoresForms.Division>)
    returns (ws: Worksheet)
    ensures fresh(ws)
    ensures ws.rows == ExportSheet(Search(suppliers, rawQ), divisions)
    ensures |ws.widths| == ColumnCount
    ensures forall c :: 0 <= c < ColumnCount ==> ws.widths[c] == ColumnWidth(ws.rows, c)
  {
    ws := WriteSheet(Search(suppliers, rawQ), divisions);
  }

  /** The workbook for the listed suppliers `qs`: header, rows, widths. */
  method WriteSheet(qs: seq<Supplier>, divisions: seq<ProveedoresForms.Division>) returns (ws: Worksheet)
    ensures fresh(ws)
    ensures ws.rows == ExportSheet(qs, divisions)
    ensures |ws.widths| == ColumnCount
    ensures forall c :: 0 <= c < ColumnCount ==> ws.widths[c] == ColumnWidth(ws.rows, c)
  {
    ws := new Worksheet();
    ws.Append(Headers);
    AppendSupplierRows(ws, qs, divisions);
    assert ws.rows == ExportSheet(qs, divisions);
    RectangularHasColumns(ws.rows);
    ws.SetColumnWidths(ColumnCount);
  }

  /** The export's `for p in qs: ws.append([...])` loop. */
  method AppendSupplierRows(ws: Worksheet, qs: seq<Supplier>, divisions: seq<ProveedoresForms.Division>)
    modifies ws
    ensures ws.rows == old(ws.rows) + ExportRows(qs, divisions)
    ensures ws.widths == old(ws.widths)
  {
    ghost var start := ws.rows;
    var i := 0;
    while i < |qs|
      invariant 0 <= i <= |qs|
      invariant ws.rows == start + ExportRows(qs[..i], divisions)
      invariant ws.widths == old(ws.widths)
    {
      ExportRowsStep(qs, i, divisions);
      ws.Append(ExportRow(qs[i], divisions));
      i := i + 1;
    }
    assert qs[..|qs|] == qs;
  }

  /** One more supplier, one more row, in the same order. */
  lemma ExportRowsStep(qs: seq<Supplier>, i: nat, divisions: seq<ProveedoresForms.Division>)
    requires i < |qs|
    ensures ExportRows(qs[..i + 1], divisions) == ExportRows(qs[..i], divisions) + [ExportRow(qs[i], divisions)]
  {
    var a := ExportRows(qs[..i + 1], divisions);
    var b := ExportRows(qs[..i], divisions) + [ExportRow(qs[i], divisions)];
    assert |a| == |b|;
    forall j | 0 <= j < |a|
      ensures a[j] == b[j]
    {
      assert qs[..i + 1][j] == qs[j];
    }
  }

  /** The supplier table. */
  class SupplierStore {
    var suppliers: seq<Supplier>

    /** Supplier keys are distinct, as a primary key column's are. */
    predicate Valid()
      reads this
    {
      forall i, j :: 0 <= i < |suppliers| && 0 <= j < |suppliers| && i != j ==> suppliers[i].id != suppliers[j].id
    }

    constructor ()
      ensures suppliers == [] && Valid()
    {
      suppliers := [];
    }

    /**
     * `eliminar_proveedor`, behind the corrected ADMIN gate `AdminLambda`.
     * A POST deletes the supplier (unless a movement still refers to it,
     * and `PROTECT` raises) and answers JSON to an XMLHttpRequest and a
     * redirect otherwise; a GET redirects and deletes nothing.
     */
    method EliminarProveedor(user: Principal, id: nat, m: Method, xhr: bool, inUse: set<nat>) returns (resp: Response)
      requires Valid()
      modifies this
      ensures Valid()
      ensures suppliers != old(suppliers) ==> forall i :: 0 <= i < |suppliers| ==> suppliers[i].id != id
      ensures !user.HasRoleIn({Admin}) ==> resp == RedirectTo(Login) && suppliers == old(suppliers)
      ensures user.HasRoleIn({Admin}) && (forall i :: 0 <= i < |old(suppliers)| ==> old(suppliers)[i].id != id) ==>
                resp == NotFound && suppliers == old(suppliers)
      ensures m == Get ==> suppliers == old(suppliers)
      ensures user.HasRoleIn({Admin}) && m == Get && (exists i :: 0 <= i < |old(suppliers)| && old(suppliers)[i].id == id) ==>
                resp == RedirectTo(ProveedoresListar)
      ensures resp == JsonOk ==> xhr && m == Post
      ensures suppliers != old(suppliers) ==>
                user.HasRoleIn({Admin}) && m == Post && id !in inUse
                && (exists k :: 0 <= k < |old(suppliers)| && old(suppliers)[k].id == id
                                && suppliers == old(suppliers)[..k] + old(suppliers)[k + 1..])
                && resp == (if xhr then JsonOk else RedirectTo(ProveedoresListar))
      ensures user.HasRoleIn({Admin}) && m == Post && id !in inUse
              && (exists i :: 0 <= i < |old(suppliers)| && old(suppliers)[i].id == id) ==>
                |suppliers| == |old(suppliers)| - 1
      ensures user.HasRoleIn({Admin}) && m == Post && id in inUse
              && (exists i :: 0 <= i < |old(suppliers)| && old(suppliers)[i].id == id) ==>
                resp == ServerError && suppliers == old(suppliers)
    {
      if !user.HasRoleIn({Admin}) {
        return RedirectTo(Login);
      }
      var k := 0;
      while k < |suppliers| && suppliers[k].id != id
        invariant 0 <= k <= |suppliers|
        invariant forall i :: 0 <= i < k ==> suppliers[i].id != id
      {
        k := k + 1;
      }
      if k == |suppliers| {
        return NotFound;
      }
      if m == Post {
        if id in inUse {
          return ServerError;
        }
        var rest := suppliers[..k] + suppliers[k + 1..];
        forall i | 0 <= i < |rest|
          ensures rest[i].id != id
        {
          if i < k { assert rest[i] == suppliers[i]; } else { assert rest[i] == suppliers[i + 1]; }
        }
        forall i, j | 0 <= i < |rest| && 0 <= j < |rest| && i != j
          ensures rest[i].id != rest[j].id
        {
          var i' := if i < k then i else i + 1;
          var j' := if j < k then j else j + 1;
          assert rest[i] == suppliers[i'] && rest[j] == suppliers[j'];
        }
        suppliers := rest;
        return if xhr then JsonOk else RedirectTo(ProveedoresListar);
      }
      resp := RedirectTo(ProveedoresListar);
    }
  }
}
