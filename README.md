# proyecto-lilis: a verified model of its validators, gates and tables

Dulcería Lilis runs a Django back office with these parts:

- **inventario**: inventory movements;
- **catalogo**: the product catalogue;
- **proveedores**: suppliers;
- **accounts_lilis**: users, roles, login and password rules.

This project models that code's decision logic in Dafny and proves what the code promises:

- the form validators and their error order;
- the role gates and permission matrices, together with how they disagree;
- the post-login routing;
- the changes the views make to their tables.

Each core source file has one module:

| module | source file |
|---|---|
| InventarioForms | `inventario/forms.py` |
| InventarioViews | `inventario/views.py` |
| CatalogoForms | `catalogo/forms.py` |
| CatalogoViews | `catalogo/views.py` |
| ProveedoresForms | `proveedores/forms.py` |
| ProveedoresPermisos | `proveedores/permisos.py` |
| ProveedoresViews | `proveedores/views.py` |
| AccountsForms | `accounts_lilis/forms.py` |
| AccountsPermisos | `accounts_lilis/permisos.py` |
| AccountsViews | `accounts_lilis/views.py` |

Shared modules:

- `Wrappers`: `Option`, `Result` and `Outcome`.
- `Text`:
  - the character classes the regexes use;
  - `str.strip` and the stripping a `CharField` does;
  - ASCII `lower()`;
  - `icontains`;
  - `int()` on text.
- `Ordering`: `order_by` on a text column, as a sort that permutes its input.
- `Tables`: the "held by another row" query behind every uniqueness check.
- `Web`:
  - roles and the logged-in principal;
  - `login_required` and `user_passes_test`;
  - the responses a view can give.

How the model represents the program:

- **Django's field semantics** are written out:
  - a `CharField` strips its input;
  - `required` means "something is left after stripping";
  - a disabled field keeps its initial value;
  - `cleaned_data` lacks a field whose own check failed.
- **The database** is a class per table holding a `seq` of records: `Ledger`, `ProductStore`, `SupplierStore` and `UserStore`. The views that save or delete are methods on these classes. Each method states the whole new table.
- **Tables with keys** (users, products) carry an invariant `Valid()` that every method keeps. For users it reads: keys ascend, keys lie below `nextId`, and usernames and e-mails are unique.
- **Quantities** (`cantidad`) are whole numbers of thousandths, so 2.5 is held as 2500. Python's truncating `int()` is modelled on them explicitly.

## Model

| member | source | states |
|---|---|---|
| Web.LoginRequired | catalogo/views.py:68 | An anonymous user is sent to the login page; any logged-in user reaches the view unchanged. |
| Web.UserPassesTest | catalogo/views.py:92 | The view runs when the test holds; otherwise the user is sent to the login page, even when logged in. |
| Web.AdminLambdaAsWritten | catalogo/views.py:182 | With the test `u.rol == "ADMIN"`, an anonymous request fails with a server error; a logged-in user passes exactly when ADMIN. |
| Web.AdminLambda | proveedores/views.py:52 | The corrected ADMIN test: ADMIN reaches the view, everyone else goes to the login page, and logged-in users get the same answer as under the test as written. |
| Web.AnonymousAdminTest | proveedores/views.py:52 | For an anonymous user, the gate as written fails and the corrected gate redirects to login. |
| Text.Strip | proveedores/views.py:15 | The result is no longer than the input, has no whitespace at either end, and occurs in the input as one contiguous piece. |
| Text.StripPadding | proveedores/views.py:15 | The input is some whitespace, then the stripped text, then some whitespace: `strip` removes whitespace and nothing else. |
| Text.StripBlank | proveedores/views.py:15 | Stripping leaves nothing exactly when the input is all whitespace. |
| Text.StripIdempotent | proveedores/views.py:15 | Stripping twice is the same as stripping once. |
| Text.Lower | accounts_lilis/forms.py:102 | Each character is lower-cased ASCII-wise; the length is kept and no upper-case letter remains. |
| Text.LowerIdempotent | accounts_lilis/forms.py:102 | Lower-casing twice is the same as lower-casing once. |
| Text.ParseInt | proveedores/forms.py:193 | `int()` succeeds exactly when the stripped text is an optional sign and then ASCII digits, with single `_` separators allowed only between two digits. The value is that of the digits with the separators dropped, negated after a `-`. |
| Text.ParseShowNat | proveedores/forms.py:193 | The decimal text of a key parses back to that key. |
| Text.ParseShowInt | proveedores/forms.py:193 | The decimal text of any integer, negative ones included, parses back to that integer. |
| Text.ParseDigitRun | proveedores/forms.py:193 | A run of digits and inner separators parses to the value of its digits. |
| Text.SeparatorIgnored | proveedores/forms.py:193 | A `_` between two runs of digits does not change what `int()` gives. |
| Ordering.Filter | proveedores/views.py:19-25 | Each element occurs in the result as often as in the input when it passes the test, and not at all otherwise. |
| Ordering.FilterKeepsSorted | proveedores/views.py:19-25 | Filtering a sorted queryset keeps it sorted. |
| Ordering.SortBy | proveedores/views.py:17 | `order_by`: the result is sorted by the key and is a permutation of the input. |
| Tables.OwnKeyNotTaken | proveedores/forms.py:233-240 | When only the edited row holds a value, that row re-saving it does not clash. |
| InventarioForms.TruncateToUnits | inventario/forms.py:41 | `int(Decimal)` rounds toward zero: it leaves a remainder below one unit that has the sign of the quantity. |
| InventarioForms.TruncationDetectsFraction | inventario/forms.py:41 | `cantidad != int(cantidad)` holds exactly when the quantity has a fractional part. |
| InventarioForms.CleanCantidad | inventario/forms.py:32-52 | A missing quantity passes on. A present one is accepted iff it is whole and positive, and is returned as its number of units. The fraction error takes precedence over the sign error. |
| InventarioForms.FractionReportedFirst | inventario/forms.py:41-49 | 2.5 and -0.5 get the whole-number error; 0 and -3 get the greater-than-zero error; 7 is accepted as 7. |
| InventarioForms.WarehouseRule | inventario/forms.py:71-89 | TRANSFERENCIA needs both warehouses and then different ones; INGRESO needs a destination; SALIDA and DEVOLUCION need an origin; AJUSTE and no kind need nothing. Each failure raises that kind's own message. |
| InventarioForms.WarehouseRuleMatchesTable | inventario/forms.py:71-89 | The warehouse chain passes exactly when the kind's requirement table is met. |
| InventarioForms.Clean | inventario/forms.py:54-91 | A past expiry date is refused for every kind and masks any warehouse error; otherwise the warehouse chain decides. At most one whole-form error is raised. |
| InventarioForms.AjusteHasNoWarehouseRule | inventario/forms.py:71-91 | AJUSTE passes `clean` with any warehouses when the expiry date is current. |
| InventarioForms.CleanText | inventario/models.py:79-84 | A nullable text column stores `NULL` for blank input and the stripped text otherwise. |
| InventarioForms.CodeErrors | inventario/models.py:79-90 | `lote` and `serie` are refused exactly when longer than 50 characters after stripping. |
| InventarioForms.QuantityErrors | inventario/models.py:73-77 | `cantidad` is free of errors iff it is present, whole, positive and within eighteen digits; it carries at most one error. |
| InventarioForms.NoFieldErrors | inventario/forms.py:32-52 | The form has no field error exactly when every field's own check passes. |
| InventarioForms.CleanPassesIff | inventario/forms.py:64-89 | Once a kind is chosen, `clean` passes iff the expiry date is current and the kind's warehouse requirement is met. |
| InventarioForms.Validate | inventario/forms.py:32-91 | `is_valid()` holds iff every field check and every `clean` rule holds. The validated movement carries exactly the posted values, with text fields stripped. A past expiry date is always reported. |
| InventarioForms.ValidQuantityIsWholeAndPositive | inventario/forms.py:41-52 | Every valid movement has a whole quantity of at least one unit, which `clean_cantidad` accepts again. |
| InventarioViews.MovimientosListarAsWritten | inventario/views.py:10-21 | As written, the listing fails with a server error for exactly the three permitted roles; an anonymous user is sent to login. |
| InventarioViews.MovimientosListar | inventario/views.py:10-21 | The corrected listing renders for exactly ADMIN, OPER_INVENTARIO and AUDITOR. Anonymous users go to login; other roles get 403. |
| InventarioViews.CreateRolesCanList | inventario/views.py:11 | The creation roles are a strict subset of the listing roles, and AUDITOR may only list (inventario/views.py:25). |
| InventarioViews.ListingFailsForAdmin | inventario/views.py:17 | For an ADMIN the listing as written fails where the corrected listing renders. |
| InventarioViews.MovimientoCrearAsWritten | inventario/views.py:24-43 | As written, a GET or an invalid POST from a permitted role fails with a server error; only a valid POST redirects to the listing. |
| InventarioViews.Ledger.MovimientoCrear | inventario/views.py:24-43 | A valid POST from ADMIN or OPER_INVENTARIO appends exactly one movement: the validated fields, stamped with the acting user and the current instant. Every other request leaves the ledger unchanged (a GET, an invalid POST, an anonymous user who goes to login, another role that gets 403). |
| AccountsPermisos.RoleRequired | accounts_lilis/permisos.py:6-19 | Anonymous users are redirected to login before the role is tested. Other roles get 403 and the view is not called. The view is called iff the user holds a permitted role. |
| AccountsPermisos.Decorated | accounts_lilis/permisos.py:9-17 | The decorated view answers with the gate's own response, or with the view's response unchanged. |
| AccountsPermisos.PermisosPorRol | accounts_lilis/permisos.py:22-47 | The four user flags hold iff ADMIN. Supplier create, edit and delete are ADMIN and OPER_COMPRAS; supplier viewing adds AUDITOR; the read-only flags mean AUDITOR. Product create equals product edit and implies product viewing; product delete is ADMIN only; a read-only role holds no write flag. |
| CatalogoForms.ValidarSoloNumeros | catalogo/forms.py:7-9 | Accepted iff the value, less one final newline, is a non-empty run of digits. |
| CatalogoForms.SoloNumerosExamples | catalogo/forms.py:7-9 | "0042" passes; the empty string and "12a" fail. |
| CatalogoForms.ValidarEanUpc | catalogo/forms.py:11-16 | An empty value passes. Any other value is accepted iff its stripped form is 8, 12 or 13 digits, and that stripped form is returned. |
| CatalogoForms.EanUpcLengthGap | catalogo/forms.py:14 | Codes of 9 to 11 digits, or of 14 or more, are refused. |
| CatalogoForms.FieldErrors | catalogo/forms.py:25-166 | A field is in form error exactly when its declared form check fails; the model's range check on the stock columns is `RangeErrors`. |
| CatalogoForms.NoFieldErrorsAllOk | catalogo/forms.py:25-166 | With no field error, each bounded field passed its own check. |
| CatalogoForms.RangeErrors | catalogo/models.py:33-35 | `full_clean` refuses `stock_minimo`, `stock_maximo` or `punto_reorden` exactly when that field passed its form check, holds a number, and the number is above 2147483647, the largest `PositiveIntegerField` value. |
| CatalogoForms.HugeStockOutOfRange | catalogo/models.py:33 | A minimum stock of 3000000000 passes the form field and is then refused by the model's range check. |
| CatalogoForms.AcceptedTextBounds | catalogo/forms.py:25-62 | An accepted SKU has 4 to 16 characters; an accepted description has 10 to 4000; a category is chosen. |
| CatalogoForms.AcceptedEanBounds | catalogo/forms.py:35-42 | An accepted EAN/UPC is blank or 8, 12 or 13 digits. |
| CatalogoForms.AcceptedNumberBounds | catalogo/forms.py:95-142 | Accepted numbers keep their declared bounds: IVA 0..100, conversion factor at least 1, minimum stock at least 0. |
| CatalogoForms.Surviving | catalogo/forms.py:175-177 | `cleaned_data.get` has a number only for a filled-in field whose own check passed. |
| CatalogoForms.ProductoClean | catalogo/forms.py:172-183 | The max-below-min error is raised exactly when both are present and the maximum is below the minimum; it masks the reorder error. The reorder error is raised exactly otherwise when the reorder point and the maximum are both non-zero and the reorder point is above the maximum. When it passes, both orderings hold. |
| CatalogoForms.StockRuleEdges | catalogo/forms.py:179-183 | Equal minimum and maximum pass; a maximum of 0 or None skips the reorder test. |
| CatalogoForms.ValidateProduct | catalogo/forms.py:172-183 | `is_valid()` holds iff there is no field error, `clean` passes, and no stock column is out of the `PositiveIntegerField` range. An accepted product satisfies every bound, including that range, and the stock rule. Each of its text fields is the posted text stripped; each number, choice and flag is the posted one. A refused form reports exactly the field and range errors. Its form error is what `clean` gives on the fields whose own check passed. |
| CatalogoForms.ValidateUniqueAsWritten | catalogo/models.py:18 | As written, the SKU and the EAN, including a blank EAN, clash iff another row holds them. |
| CatalogoForms.ValidateUnique | catalogo/models.py:17-18 | A blank EAN, stored as `NULL`, never clashes. For a non-blank EAN the check as written gives the same answer. |
| CatalogoForms.SecondBlankEanRefused | catalogo/models.py:18 | As written, a second product without a code clashes with the first; the corrected check accepts it. |
| CatalogoViews.TienePermisoProductos | catalogo/views.py:57-65 | Holds iff the user is logged in with one of the six product roles, so never for OPER_COMPRAS or USUARIO. |
| CatalogoViews.MantenedoresFlags | catalogo/views.py:73-75 | The dashboard flags: products for the six roles, suppliers for ADMIN, OPER_COMPRAS and AUDITOR, users for ADMIN. |
| CatalogoViews.DashboardMatchesGates | catalogo/views.py:73-75 | The product tile matches the product gate. The supplier and user tiles match `permisos_por_rol`. On products, the dashboard and that matrix differ for OPER_COMPRAS alone. |
| CatalogoViews.MantenedoresView | catalogo/views.py:68-89 | Every logged-in user sees the dashboard; anonymous users go to login. |
| CatalogoViews.ListingFlagsFor | catalogo/views.py:105-107 | Create equals edit and holds for ADMIN, OPER_COMPRAS, OPER_VENTAS and OPER_INVENTARIO; delete holds for ADMIN only. |
| CatalogoViews.ListingButtonsMatchGates | catalogo/views.py:105-107 | For everyone who reaches the listing, the create button shows iff the creation view would admit them. |
| CatalogoViews.MostrarTodosProductos | catalogo/views.py:92-108 | The listing renders iff the product gate holds; otherwise the user goes to login. |
| CatalogoViews.EditGate | catalogo/views.py:134-135 | Product editing is reached iff the user is ADMIN, OPER_INVENTARIO or OPER_VENTAS. Others with product access go back to the listing; the rest go to login. |
| CatalogoViews.MantenedorAgregarProducto | catalogo/views.py:112-125 | The empty creation form renders iff the user holds an edit role. A user without product access goes to login; one with product access but no edit role goes back to the listing. |
| CatalogoViews.SkuColumn | catalogo/models.py:17 | Row by row, the SKU column holds each product's key and SKU. |
| CatalogoViews.EanColumn | catalogo/models.py:18 | Row by row, the EAN column holds each product's key and EAN. |
| CatalogoViews.IndexOfId | catalogo/views.py:164 | `get_object_or_404`: gives the position of the row with that key, or none when no row has it. |
| CatalogoViews.FormOutcome | catalogo/views.py:140-143 | Corrected uniqueness: a form is saved iff it is valid, no other row holds its SKU, and its EAN is blank or held by no other row. The saved fields are the validated ones. |
| CatalogoViews.FormOutcomeAsWritten | catalogo/models.py:18 | As written: a form is saved iff it is valid and no other row holds its SKU or its EAN, a blank EAN included. |
| CatalogoViews.FormOutcomesDifferOnBlankEan | catalogo/models.py:18 | The two outcomes agree for a non-blank EAN. Whatever the as-written check saves, the corrected one saves too. A blank EAN that another row already holds is refused as written. |
| CatalogoViews.SavedProductIsValid | catalogo/views.py:140-143 | A saved product passed the form: it is within every bound and no other row holds its SKU or its non-blank EAN. For a non-blank EAN the as-written check would save it too. |
| CatalogoViews.InvalidFormNeverSaved | catalogo/views.py:140-145 | A form the field checks refuse is refused whatever the table holds. |
| CatalogoViews.AppendFresh | catalogo/views.py:141 | Saving a new product under the next key keeps the keys distinct. |
| CatalogoViews.ReplaceSameKey | catalogo/views.py:169 | Saving an edited product under its own key keeps the keys distinct. |
| CatalogoViews.RemoveKeepsKeys | catalogo/views.py:188 | Deleting a row keeps the keys distinct, and the deleted key is gone. |
| CatalogoViews.AppendKeepsCodes | catalogo/models.py:17-18 | Appending a product whose SKU and EAN no row holds keeps SKUs unique and non-blank EANs unique. |
| CatalogoViews.ReplaceKeepsCodes | catalogo/models.py:17-18 | Replacing a row with codes no other row holds keeps the codes unique. |
| CatalogoViews.RemoveKeepsCodes | catalogo/models.py:17-18 | Deleting a row keeps the codes unique. |
| CatalogoViews.ProductStore.CrearProducto | catalogo/views.py:128-152 | A valid POST from an edit role appends one product under a fresh key. A GET, an invalid POST and a refused user leave the table as it was. The table keeps unique keys, SKUs and non-blank EANs. |
| CatalogoViews.ProductStore.EditarProducto | catalogo/views.py:155-179 | A missing key gives 404. A valid POST replaces only that row, under the same key. Everything else changes nothing. |
| CatalogoViews.ProductStore.Insert | catalogo/views.py:141 | `form.save()` of a new product with untaken codes appends it under the next key and keeps the table's invariants. |
| CatalogoViews.ProductStore.Replace | catalogo/views.py:168 | `form.save()` of an edited product with codes no other row holds replaces only that row, under its key, and keeps the invariants. |
| CatalogoViews.ProductStore.EliminarProducto | catalogo/views.py:182-191 | Only an ADMIN's POST deletes, and only that row. A GET shows the confirmation page and changes nothing. A product still referenced raises. |
| ProveedoresForms.ValidarRutNif | proveedores/forms.py:13-17 | Accepted iff the stripped length is 8 to 20 and the value is a run of `0-9kK.-`. The length error wins. |
| ProveedoresForms.ShortRutRefusedForLength | proveedores/forms.py:14-15 | Any value shorter than eight characters gets the length error. |
| ProveedoresForms.AnchoredOnStripped | proveedores/forms.py:16 | On stripped text, `^[..]+$` means "non-empty and every character in the class". |
| ProveedoresForms.ValidarTelefono | proveedores/forms.py:20-26 | Empty passes. Otherwise the value must be all digits and 9 to 15 long, and the digit error comes first. |
| ProveedoresForms.ValidarNombre | proveedores/forms.py:29-33 | Accepted iff the stripped length is 3 to 255, with a separate error for each side. |
| ProveedoresForms.ValidarMoneda | proveedores/forms.py:36-42 | Accepted iff exactly three characters, all letters; the length error comes first. |
| ProveedoresForms.MonedasPassValidator | proveedores/forms.py:146-150 | Every currency the select offers passes `validar_moneda`. |
| ProveedoresForms.CleanRutNif | proveedores/forms.py:233-240 | A RUT is accepted iff it is valid once stripped and no other supplier holds it; when only the holder clashes, the error is "already taken". |
| ProveedoresForms.CleanEmail | proveedores/forms.py:214-221 | An address is refused iff a supplier other than the edited one holds it. |
| ProveedoresForms.ResaveOwnValues | proveedores/forms.py:217-218 | Re-saving a supplier with its own address and RUT passes. |
| ProveedoresForms.NewSupplierEmailClash | proveedores/forms.py:214-220 | A new supplier with a stored address is refused. |
| ProveedoresForms.DivisionsOf | proveedores/forms.py:194-196 | The country's divisions ordered by name; each occurs as often as in the table, and no other division occurs. |
| ProveedoresForms.DivisionChoices | proveedores/forms.py:184-208 | A posted country that parses selects that country's divisions; one that does not parse leaves none. With no posted country, an edited instance with a country selects that country's divisions; otherwise there are none. |
| ProveedoresForms.PostedCountrySelects | proveedores/forms.py:191-196 | Posting a country's key selects exactly its divisions. |
| ProveedoresForms.FirstWithId | proveedores/forms.py:60-65 | Gives the first choice with that key, so no earlier choice has it, or the end when no choice has it. |
| ProveedoresForms.CleanDivision | proveedores/forms.py:60-65 | A blank division is allowed; a posted one must be among the choices. |
| ProveedoresForms.AcceptedDivisionInCountry | proveedores/forms.py:191-196 | An accepted division belongs to the posted country. |
| ProveedoresForms.SetDefault | proveedores/forms.py:206-208 | `setdefault` fills a key only when it is absent, and touches no other key. |
| ProveedoresForms.ModelInitial | proveedores/forms.py:206-208 | The form's initial data already holds `pais` and `division`, plus whatever initial argument was passed. |
| ProveedoresForms.ProveedorForm.constructor | proveedores/forms.py:184-208 | After construction, the division choices are those `DivisionChoices` gives, and `initial` is unchanged by the two `setdefault` calls. |
| ProveedoresPermisos.PermisosProveedoresContext | proveedores/permisos.py:1-9 | Listing is ADMIN, OPER_COMPRAS and AUDITOR; create equals edit and is ADMIN and OPER_COMPRAS; delete is ADMIN. A user without a role gets no flag. Each flag implies the weaker one. |
| ProveedoresPermisos.MatricesDisagreeOnDelete | proveedores/permisos.py:8 | The two supplier matrices agree on listing and creating, and disagree on deleting for OPER_COMPRAS alone (accounts_lilis/permisos.py:36). |
| ProveedoresViews.TienePermisoProveedores | proveedores/views.py:9-10 | Holds iff the user is logged in as ADMIN or OPER_COMPRAS. |
| ProveedoresViews.AuditorListedButRefused | proveedores/views.py:10 | AUDITOR is shown the listing flag but refused by the view; whoever the view admits also has the flag. |
| ProveedoresViews.Search | proveedores/views.py:15-25 | Suppliers ordered by business name. A blank query lists them all, each as often as stored. Otherwise a supplier is kept, as often as stored, iff the stripped query occurs, ignoring case, in its name, RUT, e-mail or city. |
| ProveedoresViews.BlankQueryListsAll | proveedores/views.py:15-19 | A whitespace-only query lists every supplier. |
| ProveedoresViews.SearchFindsOwnName | proveedores/views.py:19-21 | Searching for a supplier's own name finds it. |
| ProveedoresViews.MostrarTodosProveedores | proveedores/views.py:12-30 | The listing renders iff the supplier gate holds; otherwise the user goes to login. |
| ProveedoresViews.ExportarGate | proveedores/views.py:67-69 | The spreadsheet goes to the same two roles; everyone else goes to login. |
| ProveedoresViews.ExportRowAsWritten | proveedores/views.py:95-108 | Each row has twelve cells, and the Región cell is always blank. |
| ProveedoresViews.DivisionName | proveedores/views.py:102 | Blank for no division and for a key no listed division has; otherwise the name of the first listed division with that key. A non-blank name always belongs to a division with that key. |
| ProveedoresViews.ExportRow | proveedores/views.py:95-108 | Twelve cells: the Región cell names the supplier's division and every other cell is as written. |
| ProveedoresViews.RegionLostAsWritten | proveedores/views.py:102 | A supplier with a stored division loses its region in the export as written; the corrected row shows it. |
| ProveedoresViews.ExportRows | proveedores/views.py:94-108 | One row per listed supplier, in listing order. |
| ProveedoresViews.ExportSheet | proveedores/views.py:87-108 | The header, then one row per supplier in order; the sheet is rectangular. |
| ProveedoresViews.LongestCell | proveedores/views.py:111-117 | The longest text in the column over the rows seen so far, bounding each of them and attained by one. |
| ProveedoresViews.ColumnWidth | proveedores/views.py:118 | The width is min(longest + 2, 45). It lies between 2 and 45 and covers every cell up to the cap. Below the cap, some cell plus two attains it; it is 45 only when some cell plus two reaches 45. |
| ProveedoresViews.WidthsCoverHeaders | proveedores/views.py:87-118 | No column is narrower than its header needs, so every width is at least 7. |
| ProveedoresViews.Worksheet.Append | proveedores/views.py:92 | `ws.append`: one more row at the end; the widths are untouched. |
| ProveedoresViews.Worksheet.SetColumnWidths | proveedores/views.py:110-118 | The nested width loop sets each column to `ColumnWidth` and leaves the rows alone. |
| ProveedoresViews.ExportarProveedoresExcel | proveedores/views.py:70-118 | The sheet is the header plus the same search the listing uses, with every width as `ColumnWidth` says. |
| ProveedoresViews.WriteSheet | proveedores/views.py:83-118 | Header, rows and widths for the listed suppliers. |
| ProveedoresViews.AppendSupplierRows | proveedores/views.py:94-108 | The loop appends exactly the export rows, in order. |
| ProveedoresViews.SupplierStore.EliminarProveedor | proveedores/views.py:52-65 | Only an ADMIN's POST deletes, and only the row with that key. It answers JSON to an XMLHttpRequest and redirects otherwise. A GET redirects and deletes nothing; a missing key gives 404; a supplier still referenced raises. Keys stay distinct, and a deleted key is gone. |
| AccountsForms.PasswordFuerte | accounts_lilis/forms.py:9-17 | Accepted iff the value has an upper-case letter, a lower-case letter, a digit and a listed symbol; the first one missing, in that order, is the error. |
| AccountsForms.StrongPasswordHasFourChars | accounts_lilis/forms.py:9-17 | A strong password has at least four characters. |
| AccountsForms.NoContieneNumeros | accounts_lilis/forms.py:20-22 | Refused exactly when a digit occurs. |
| AccountsForms.SoloLetras | accounts_lilis/forms.py:25-27 | Accepted iff non-empty and every character is an ASCII letter, an accented vowel, ñ or Ñ, or whitespace. |
| AccountsForms.SoloLetrasHasNoDigits | accounts_lilis/forms.py:20-27 | What `solo_letras` accepts, `no_contiene_numeros` accepts too. |
| AccountsForms.StrongPasswordIsNotAName | accounts_lilis/forms.py:9-27 | A strong password fails both name validators. |
| AccountsForms.LastAt | accounts_lilis/forms.py:102 | Gives the last `@` of an address, or none when there is no `@`. |
| AccountsForms.NormalizeFixed | accounts_lilis/forms.py:102 | An address without upper-case letters is already normalised. |
| AccountsForms.NormalizeLowered | accounts_lilis/forms.py:102 | What `clean_email` returns needs no further normalising. |
| AccountsForms.NormalizeKeepsLocalPart | accounts_lilis/forms.py:64-69 | Normalising keeps the local part as typed. |
| AccountsForms.Password1Errors | accounts_lilis/forms.py:32-41 | Blank is "required". Otherwise the password is free of errors iff it is strong and at least 8 long, and both validators report. |
| AccountsForms.RegisterFieldErrors | accounts_lilis/forms.py:31-54 | A field is in error exactly when its own check, or its column's uniqueness, fails. |
| AccountsForms.NoRegisterFieldErrors | accounts_lilis/forms.py:31-54 | No field error means the username, e-mail and both password fields passed. |
| AccountsForms.RegisterClean | accounts_lilis/forms.py:56-62 | Valid iff no field fails and the two cleaned passwords are equal. An accepted registration has a strong stripped password of at least 8, an untaken username and e-mail, and the stripped first and last names. An error records the failing fields and the mismatch. |
| AccountsForms.AcceptedPasswordsAgree | accounts_lilis/forms.py:60-61 | An accepted sign-up's two passwords are equal once stripped. |
| AccountsForms.WeakPasswordAlsoMismatches | accounts_lilis/forms.py:58-61 | A weak `password1` next to a filled-in `password2` reports the field error and the mismatch too. |
| AccountsForms.RegisterSave | accounts_lilis/forms.py:64-70 | The saved user has the cleaned values, the password and the role USUARIO. |
| AccountsForms.RegisteredUserIsUsuario | accounts_lilis/forms.py:64-70 | Whatever is posted, a registered user is USUARIO with a strong password of at least 8. |
| AccountsForms.CleanUsername | accounts_lilis/forms.py:92-99 | The stripped username, refused iff another user holds it. |
| AccountsForms.CleanEmail | accounts_lilis/forms.py:101-108 | The stripped, lower-cased address, refused iff another user holds it. |
| AccountsForms.ResaveOwnUser | accounts_lilis/forms.py:94-105 | Re-saving a user with their own username and e-mail passes. |
| AccountsForms.EmailClashIgnoresCase | accounts_lilis/forms.py:102-106 | An address differing only in case and surrounding spaces clashes with the stored one. |
| AccountsForms.AdminFieldErrors | accounts_lilis/forms.py:74-108 | A field is in error exactly when its own check fails; a disabled field never is. |
| AccountsForms.NullIfBlank | accounts_lilis/forms.py:78 | A blank telephone is stored as `NULL`; otherwise the stripped text is stored. |
| AccountsForms.AdminClean | accounts_lilis/forms.py:92-108 | Valid iff no field fails. An accepted user has a normalised, untaken username and e-mail and the stripped first and last names. Disabled fields keep the stored role and state; otherwise the posted ones are used. |
| AccountsForms.DisabledFieldsIgnorePost | accounts_lilis/views.py:102-104 | With role and state disabled, no posted role or state changes the result. |
| AccountsForms.ResetEmailAsWritten | accounts_lilis/forms.py:121-125 | Accepted iff the stripped, lower-cased input equals a stored address exactly. |
| AccountsForms.MixedCaseEmailNeverFound | accounts_lilis/forms.py:121-125 | As written, a stored address with an upper-case letter is never found. |
| AccountsForms.ResetEmail | accounts_lilis/forms.py:121-125 | Accepted iff the input matches a stored address, ignoring case. |
| AccountsForms.StoredEmailResets | accounts_lilis/forms.py:121-125 | Every stored address, typed as stored, can ask for a reset. |
| AccountsForms.ResetLookupsAgreeOnLowerCase | accounts_lilis/forms.py:121-125 | On lower-case stored addresses the two lookups agree. |
| AccountsForms.RegisteredMixedCaseCannotReset | accounts_lilis/forms.py:121-125 | A user who signs up as `Ana@…` can never reset the password as written. |
| AccountsForms.SetPasswordClean | accounts_lilis/forms.py:148-151 | Accepted iff the first password is non-empty and strong and the two are equal; the result is the new password. |
| AccountsViews.PermisoAdmin | accounts_lilis/views.py:39-40 | Holds iff the user is logged in as ADMIN. |
| AccountsViews.AdminGate | accounts_lilis/views.py:44-45 | An ADMIN reaches the view; everyone else goes to login. |
| AccountsViews.LoginPersonalizado | accounts_lilis/views.py:147-176 | A login happens iff a POST authenticates a user who is not BLOQUEADO and is active. Failed and refused attempts add an error. Routing: a pending password change first, then ADMIN to the maintenance page, then the landing page. |
| AccountsViews.MantenedoresOnlyForAdmins | accounts_lilis/views.py:169-170 | Whoever is sent to the maintenance page is an ADMIN whom the user views admit. |
| AccountsViews.PendingChangeWinsOverAdmin | accounts_lilis/views.py:166-170 | An ADMIN with a pending password change is logged in and sent to the change page. |
| AccountsViews.TempPasswordShape | accounts_lilis/views.py:60 | Every suffix the view can draw gives `LILIS-` + six ASCII letters or digits + `!`, 13 characters in all. |
| AccountsViews.TempPasswordCanBeWeak | accounts_lilis/views.py:60-61 | A temporary password whose suffix has no lower-case letter fails `password_fuerte`. |
| AccountsViews.UsernameColumn | accounts_lilis/forms.py:96 | One keyed username per user. |
| AccountsViews.EmailColumn | accounts_lilis/forms.py:105 | One keyed e-mail per user. |
| AccountsViews.IndexOfUser | accounts_lilis/views.py:96 | `get_object_or_404`: gives the row with that key, or none when no row has it. |
| AccountsViews.AppendUser | accounts_lilis/views.py:63 | Saving a new user under the next key, with an untaken username and e-mail, keeps the table's invariants. |
| AccountsViews.ReplaceUser | accounts_lilis/views.py:115 | Saving an edited user with values no other user holds keeps the invariants. |
| AccountsViews.ReplaceSameKeys | accounts_lilis/views.py:190 | A change to columns that are neither keys nor unique keeps the invariants. |
| AccountsViews.RemoveUser | accounts_lilis/views.py:140 | Deleting a user keeps the invariants. |
| AccountsViews.ApplyEdit | accounts_lilis/views.py:109-113 | The edit writes the cleaned values and keeps the key, the password and the flags. A user saved as `admin_principal` is ADMIN and ACTIVO. |
| AccountsViews.NewFromAdmin | accounts_lilis/views.py:58-63 | The new user has the cleaned values, the temporary password and a pending password change. |
| AccountsViews.UserStore.constructor | accounts_lilis/models.py:7 | The user table starts empty with its invariants. |
| AccountsViews.UserStore.UsuarioListar | accounts_lilis/views.py:44-48 | An ADMIN gets every user in key order; nobody else gets any. |
| AccountsViews.UserStore.Insert | accounts_lilis/views.py:63 | Appends the user under the next key and keeps the invariants. |
| AccountsViews.UserStore.Replace | accounts_lilis/views.py:115 | Replaces only that row and keeps the invariants. |
| AccountsViews.UserStore.Registrar | accounts_lilis/views.py:19-35 | A valid sign-up appends the user `save` builds and logs them in; anything else changes nothing. |
| AccountsViews.UserStore.AgregarPost | accounts_lilis/views.py:56-90 | A valid form appends the new user; an invalid one changes nothing. |
| AccountsViews.UserStore.UsuarioAgregar | accounts_lilis/views.py:51-90 | Only an ADMIN's valid POST appends a user, and that user has the temporary password and a pending change. |
| AccountsViews.UserStore.EditPost | accounts_lilis/views.py:106-118 | A valid form changes only the edited row, as `ApplyEdit` says. |
| AccountsViews.UserStore.UsuarioEditar | accounts_lilis/views.py:93-126 | ADMIN only. A missing key gives 404. Role and state are frozen for `admin_principal`. Only the edited row changes. |
| AccountsViews.UserStore.UsuarioEliminar | accounts_lilis/views.py:131-142 | `admin_principal` is never deleted. Any other user is deleted whatever the method, unless still referenced—then the view raises. |
| AccountsViews.UserStore.CambioPasswordObligatorio | accounts_lilis/views.py:182-192 | An accepted change gives the logged-in user the new, strong password and clears the pending change. No other row changes. |

## Left out

- The ORM, templates, `messages`, sessions and the HTTP layer are not modelled. Tables are sequences, and a view's answer is a `Response` value.
- `authenticate` is a parameter of `LoginPersonalizado` (the user it returned, if any). The `is_active` check inside Django's `ModelBackend` is not modelled.
- `set_password` hashing is not modelled: the stored password is the text given to it.
- `send_mail` in `usuario_agregar` is left out (I/O).
- The `check_email` view is left out (I/O).
- `random.choices` is left out: the six characters are a parameter of `UsuarioAgregar`, constrained to ASCII letters and digits.
- `timezone.now` and `date.today()` are parameters (`now`, `today`).
- `EmailField` address syntax and `URLValidator` are left out (library validators). The model takes a posted e-mail as already accepted.
- Django's username character validator and the null-character validator of every `CharField` are left out.
- `AUTH_PASSWORD_VALIDATORS` of `SetPasswordForm` are left out (project settings).
- NFKC normalisation of usernames is left out (Unicode).
- Text handling leaves Unicode out, except where stated:
  - `\d` is ASCII digits;
  - `isalpha` covers the ASCII and Latin-1 letters only;
  - `lower()` and `icontains` fold ASCII letters only;
  - the database collation behind exact lookups and `order_by` is left out, and ordering is by code point.
- The openpyxl workbook, the sheet title and the HTTP response of the export are left out. Only the rows and column widths are modelled.
- Image upload and the cost and price decimals of `ProductoForm` are left out (no arithmetic reads them).
- `crear_proveedor` and `editar_proveedor` are not modelled as table updates, only through the supplier form's checks.
- The public catalogue pages (landing, catalogue, sub-catalogue, detail, company) are not part of this model; they only read.
- Django reports `validate_unique` errors together with field errors. The model checks uniqueness only for a form whose own checks pass, which decides the same validity.
- The URL files route to views that do not exist (movement edit, delete and export; `obtener_divisiones`); nothing is modelled for them.
- `print("ERRORES:", form.errors)` in `usuario_editar` is left out (output only).
- `NormalizeEmail` leaves out the `strip()` of `normalize_email`: the value it receives is already stripped.
- `InventarioViews.Ledger.MovimientoCrear`, `InventarioViews.MovimientosListar`: the form and listing pages render as with `permisos_por_rol(request.user)`; the as-written failure is in Findings.
- `ProveedoresViews.MostrarTodosProveedores`: states the gate only; the suppliers it lists are `Search`, shared with the export.
- `ParseInt`: the non-ASCII Unicode digits that `int()` also accepts are not modelled.
- `RangeErrors`: the model uses Django's base range for `PositiveIntegerField`, 0 to 2147483647. Some database backends accept larger values or have no upper bound; the project settings that choose the backend are not part of this model.
- `CatalogoViews.FormOutcome`, `CatalogoViews.SavedProductIsValid`, `CatalogoViews.ProductStore.CrearProducto`, `CatalogoViews.ProductStore.EditarProducto`: use the corrected uniqueness check, where a blank EAN never clashes. As written, a second product with a blank EAN is refused; that outcome is `FormOutcomeAsWritten`, in Findings.
- `CatalogoViews.ProductStore.EliminarProducto`, `ProveedoresViews.SupplierStore.EliminarProveedor`: use the corrected ADMIN gate, so an anonymous user is sent to login. As written, that request raises (a server error); see Findings.
- The temporary password of `usuario_agregar` is never checked against `password_fuerte`. This is stated by `TempPasswordCanBeWeak`, not corrected.

## Findings

| source | as written | input that shows it | evidently intended | confidence | as-written member | corrected member |
|---|---|---|---|---|---|---|
| inventario/views.py:17 | `permisos_por_rol(request.user.rol)` passes a string to a function that reads `.rol`, so every rendered page of the two movement views raises (also at line 39). | An ADMIN opening the movement listing, or a GET of the movement form. | `permisos_por_rol(request.user)` | not executed | InventarioViews.MovimientosListarAsWritten, InventarioViews.MovimientoCrearAsWritten, InventarioViews.ListingFailsForAdmin | InventarioViews.MovimientosListar, InventarioViews.Ledger.MovimientoCrear |
| proveedores/views.py:102 | The Región cell reads `getattr(p, "region", None)`. `Proveedor` has no `region` attribute, so the cell is always blank. | Any supplier with a division stored. | The name of the supplier's `division`. | not executed | ProveedoresViews.ExportRowAsWritten, ProveedoresViews.RegionLostAsWritten | ProveedoresViews.ExportRow |
| catalogo/views.py:182 | `user_passes_test(lambda u: u.rol == "ADMIN")` runs before `login_required`, and the anonymous user has no `rol`. (Same at proveedores/views.py:52.) | An anonymous request to delete a product or a supplier. | Test `u.is_authenticated and u.rol == "ADMIN"`, giving a redirect to login. | not executed | Web.AdminLambdaAsWritten, Web.AnonymousAdminTest | Web.AdminLambda, CatalogoViews.ProductStore.EliminarProducto, ProveedoresViews.SupplierStore.EliminarProveedor |
| catalogo/models.py:18 | `ean_upc` is `unique` and `null=True`, but the form saves a blank code as `""`, so two products without a code clash. | A second product saved with the EAN left blank. | A blank code stored as `NULL`, which never clashes. | not executed | CatalogoForms.ValidateUniqueAsWritten, CatalogoForms.SecondBlankEanRefused, CatalogoViews.FormOutcomeAsWritten, CatalogoViews.FormOutcomesDifferOnBlankEan | CatalogoForms.ValidateUnique, CatalogoViews.FormOutcome, CatalogoViews.ProductStore.CrearProducto, CatalogoViews.ProductStore.EditarProducto |
| accounts_lilis/forms.py:121-125 | The reset form lower-cases the input and compares it exactly with stored addresses. Those keep the case of the local part as typed at sign-up. | A user registered as `Ana@lilis.cl` asking for a reset. | A case-insensitive lookup. | not executed; depends on the database collation | AccountsForms.ResetEmailAsWritten, AccountsForms.MixedCaseEmailNeverFound, AccountsForms.RegisteredMixedCaseCannotReset | AccountsForms.ResetEmail, AccountsForms.StoredEmailResets |
