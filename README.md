# Company and product catalogue, modelled in Dafny

This project models the core of a small company and product catalogue backend. The modelled parts are:

- the two self-validating domain entities, `Empresa` (a company) and `Producto` (a product with its list of `ProductoPrecio` prices in COP, USD or EUR);
- the application use cases: create, get, list, update, delete and add a price;
- the Django repositories, over an in-memory store;
- the rules of the inventory PDF view: the e-mail check, the order of the request's decisions, and the text of every cell;
- the role permissions of the API.

Layout of the project:

- `resultados.dfy`: `Option`, `Result`, `Outcome`, and the `Error` type with one constructor per `ValueError` the source raises.
- `texto.dfy`: Python's `str.strip()`, the "required and bounded" field check shared by the validators, and decimal digits.
- `empresa.dfy`, `producto.dfy`: the entities as classes.
  - Fields the source never reassigns are `const`; mutators carry `modifies` clauses.
  - Validation is pure functions that return the first failing check.
  - The raising constructors become static factory methods that return a `Result`.
  - The price-list operations are specified by filter functions over `seq<Precio>`.
- `persistencia.dfy`: the database as one class, `BaseDeDatos`.
  - It has three tables held as maps: companies by nit, products by code, and each product's price rows by currency.
  - Its invariant `TablasValidas` states what the schema guarantees: every row passes entity validation, each product's company exists (PROTECT foreign key), and the price rows belong to stored products (CASCADE).
  - It also has the nondeterministic read order used by every listing.
- `repositorio_empresa.dfy`, `repositorio_producto.dfy`: `DjangoEmpresaRepository` and `DjangoProductoRepository` as classes over a shared `BaseDeDatos`.
- `casos_empresa.dfy`, `casos_producto.dfy`: the use cases as methods over the repositories. Each one is proved against a pure function on the table values (`Alta`, `Actualizada`, `AltaProducto`, `PreciosAgregados`, `Listados`), and the properties are proved about those functions.
- `formato.dfy`: the amount text `f"{v:,.2f}"` followed by the triple `replace`.
- `correo.dfy`: `_validar_email` and the language of its regular expression.
- `inventario.dfy`: the report's element list, the filename and date stamps, and `generar_inventario_pdf`.
- `permisos.dfy`: `IsAdmin`, `IsAdminOrExterno` and `IsAdminOrReadOnly`.

Amounts are exact `real`s. A `Precio` is a `ProductoPrecio` whose amount lies in [0, 999999999999.99], because the source cannot construct any other.

## Model

| member | source | states |
|---|---|---|
| Texto.Strip | src/litethinking/domain/entities/empresa.py:17 | `s.strip()` is `s` with its leading and trailing whitespace removed: an infix of `s` whose cut-off prefix and suffix are whitespace; it is empty exactly when `s` is all whitespace, and a non-empty result neither starts nor ends with whitespace |
| Texto.StripIdempotente | src/litethinking/presentation/api/inventario/views.py:232 | stripping twice is stripping once |
| Texto.CampoRequerido | src/litethinking/domain/entities/empresa.py:15-20 | a required field passes iff it is not blank and not over its maximum; a blank one fails with the "required" error, an over-long one with the "too long" error |
| Texto.Decimal | src/litethinking/presentation/api/inventario/views.py:210 | `str(n)`: non-empty decimal digits, no leading zero, reading back as `n` |
| Empresas.ValidarEmpresa | src/litethinking/domain/entities/empresa.py:3-41 | construction passes iff nit (≤20), nombre (≤255), direccion (≤255) and telefono (≤30) are non-blank and within bounds; the first failing check, in that order, gives the error |
| Empresas.Empresa.constructor | src/litethinking/domain/entities/empresa.py:3-13 | a company built from valid fields holds exactly those fields and is valid |
| Empresas.Empresa.Nueva | src/litethinking/domain/entities/empresa.py:3-13 | `Empresa(...)` fails with the validation error, or yields a fresh valid company with exactly the given fields |
| Empresas.Empresa.ActualizarNombre | src/litethinking/domain/entities/empresa.py:43-46 | re-validates the name; on failure the name is unchanged; only `nombre` may change and validity is kept |
| Empresas.Empresa.ActualizarDireccion | src/litethinking/domain/entities/empresa.py:48-51 | same rule for `direccion` |
| Empresas.Empresa.ActualizarTelefono | src/litethinking/domain/entities/empresa.py:53-56 | same rule for `telefono` |
| Empresas.AplicarTodosValido | src/litethinking/domain/entities/empresa.py:43-56 | whatever sequence of mutator calls is made and whatever each returns, a valid company stays valid, and each of nombre, direccion and telefono keeps its value when no call passes a valid value for it |
| Empresas.SecuenciaDeMutaciones | src/litethinking/domain/entities/empresa.py:43-56 | a loop making any sequence of mutator calls: each call returns its field's check, the fields end as the fold `AplicarTodos` of the calls says, and the company stays valid |
| Empresas.IgualdadPorNit | src/litethinking/domain/entities/empresa.py:58-66 | equality is an equivalence that holds iff the nits are equal, and equal companies hash alike |
| Productos.MonedaDesde | src/litethinking/infrastructure/persistence/producto/repository_impl.py:61 | `Moneda(s)` succeeds exactly for "COP", "USD" and "EUR", giving the currency with that code |
| Productos.CodigoIdaVuelta | src/litethinking/domain/entities/producto.py:6-10 | reading a currency's code back gives the currency |
| Productos.CodigoInyectivo | src/litethinking/domain/entities/producto.py:6-10 | different currencies have different codes |
| Productos.Descripcion | src/litethinking/domain/entities/producto.py:12-20 | a currency's description is never its bare code |
| Productos.DescripcionInyectiva | src/litethinking/domain/entities/producto.py:12-20 | different currencies have different descriptions, so the description identifies the currency as its code does |
| Productos.ValidarValor | src/litethinking/domain/entities/producto.py:31-36 | an amount passes iff 0 ≤ v ≤ 999999999999.99; a negative one fails as negative, a larger one as over the maximum |
| Productos.NuevoPrecio | src/litethinking/domain/entities/producto.py:25-29 | a price is constructible iff its amount passes validation, and then carries exactly the given currency and amount |
| Productos.ConvertirA | src/litethinking/domain/entities/producto.py:38-41 | converting gives the target currency with amount v×rate, failing under the same bounds when the product is out of range |
| Productos.FiltrosMiembros | src/litethinking/domain/entities/producto.py:98 | the filter without currency m holds exactly the prices not in m; the filter of m holds exactly the prices in m |
| Productos.PrimerPrecio | src/litethinking/domain/entities/producto.py:101-106 | the search finds nothing iff no price is in m, and otherwise a listed price in m |
| Productos.PrimerPrecioEsPrimeroDelFiltro | src/litethinking/domain/entities/producto.py:101-106 | the search returns the first price in m, in list order |
| Productos.AgregarPrecioCorrecto | src/litethinking/domain/entities/producto.py:96-99 | after the upsert exactly one price is in `p.moneda`, it is `p` and it is last, other-currency prices keep their order, and a lookup of `p.moneda` finds `p` |
| Productos.AgregarPrecioInvariante | src/litethinking/domain/entities/producto.py:96-99 | the upsert keeps currencies unique; repeating it is a no-op; a second upsert in the same currency overrides the first |
| Productos.RemoverPrecioCorrecto | src/litethinking/domain/entities/producto.py:108-110 | after removal no price is in m, the other currencies keep their prices in order, removal is idempotent, a lookup finds nothing, and unique currencies stay unique |
| Productos.SinMonedaConcatenada | src/litethinking/domain/entities/producto.py:98 | the currency filter distributes over concatenation |
| Productos.ConMonedaConcatenada | src/litethinking/domain/entities/producto.py:103-105 | the "prices in m" filter distributes over concatenation |
| Productos.ConMonedaTrasQuitar | src/litethinking/domain/entities/producto.py:108-110 | after removing currency q, currency m has no prices if m = q and its old prices otherwise |
| Productos.SinMonedaIdempotente | src/litethinking/domain/entities/producto.py:108-110 | removing a currency twice is removing it once |
| Productos.ValidarEmpresaNit | src/litethinking/domain/entities/producto.py:91-94 | the company nit of a product passes iff it is not blank; otherwise the error is "nit required" |
| Productos.ValidarProducto | src/litethinking/domain/entities/producto.py:66-68 | a product is valid iff code (non-blank, ≤50), name (non-blank, ≤255) and company nit (non-blank) pass; the first failing check, in that order, gives the error |
| Productos.OVacio | src/litethinking/domain/entities/producto.py:73-74 | `x or ""` is empty exactly for None and "", and is the text otherwise |
| Productos.OSinPrecios | src/litethinking/domain/entities/producto.py:75 | `precios or []` is empty exactly for None and [], and is the list otherwise |
| Productos.Producto.constructor | src/litethinking/domain/entities/producto.py:56-75 | a product from valid fields holds them, with `caracteristicas`/`descripcion` defaulting to "" and `precios` to [] |
| Productos.Producto.Nuevo | src/litethinking/domain/entities/producto.py:56-75 | `Producto(...)` fails with the first validation error, or yields a fresh valid product with the given fields and defaults |
| Productos.Producto.AgregarPrecio | src/litethinking/domain/entities/producto.py:96-99 | the new price list is the old one without `p.moneda`, followed by `p` |
| Productos.Producto.ObtenerPrecio | src/litethinking/domain/entities/producto.py:101-106 | the search loop returns the first price in m, or None |
| Productos.Producto.RemoverPrecio | src/litethinking/domain/entities/producto.py:108-110 | the new price list is the old one without currency m |
| Productos.Producto.ActualizarNombre | src/litethinking/domain/entities/producto.py:112-115 | re-validates the name; on failure the name is unchanged; validity is kept |
| Productos.Producto.ActualizarCaracteristicas | src/litethinking/domain/entities/producto.py:117-119 | None and "" become "", other text is stored as given |
| Productos.IgualdadPorCodigo | src/litethinking/domain/entities/producto.py:121-129 | product equality is an equivalence that holds iff the codes are equal, and equal products hash alike |
| Persistencia.AFilasValidas | src/litethinking/infrastructure/persistence/producto/repository_impl.py:20-26 | the price rows written for any valid price list are valid rows |
| Persistencia.AFilasUltimo | src/litethinking/infrastructure/persistence/producto/repository_impl.py:21-26 | after rewriting, currency m has a row iff the list has a price in m, and the row holds the last such price |
| Persistencia.AFilasSinMoneda | src/litethinking/infrastructure/persistence/producto/repository_impl.py:20-26 | the rows of a list without currency m are the list's rows without m |
| Persistencia.AFilasTrasAgregar | src/litethinking/domain/entities/producto.py:96-99 | the rows of the upserted list are the old rows with `m := v` |
| Persistencia.ReflejaPrimerPrecio | src/litethinking/infrastructure/persistence/producto/repository_impl.py:58-63 | in a list read back from the rows, the lookup of m finds the row's amount, or nothing when there is no row |
| Persistencia.ReflejaTrasAgregar | src/litethinking/application/use_cases/producto_use_cases.py:80-83 | upserting into a read-back list gives a list that reads back from the rows updated at that currency |
| Persistencia.UnicasAlAnadir | src/litethinking/infrastructure/persistence/producto/model.py:47-52 | appending a price whose currency has no row keeps currencies unique |
| Persistencia.PrefijoSinMoneda | src/litethinking/infrastructure/persistence/producto/model.py:47-52 | in a list with unique currencies, no price's currency appears among the rows of the prices before it |
| Persistencia.TablasTrasGuardarEmpresa | src/litethinking/infrastructure/persistence/empresa/repository_impl.py:12-19 | upserting a valid company row keeps the store invariant |
| Persistencia.TablasTrasGuardarProducto | src/litethinking/infrastructure/persistence/producto/model.py:12-16 | upserting a valid product of an existing company, with valid price rows, keeps the store invariant |
| Persistencia.Ordenar | src/litethinking/infrastructure/persistence/producto/repository_impl.py:37-39 | the storage order lists every key exactly once |
| RepositorioEmpresas.AEntidad | src/litethinking/infrastructure/persistence/empresa/repository_impl.py:48-54 | a fresh, valid entity with the row's nit and fields |
| RepositorioEmpresas.DjangoEmpresaRepository.Guardar | src/litethinking/infrastructure/persistence/empresa/repository_impl.py:10-22 | upsert by nit: only that row changes, to the entity's fields; the other tables are untouched; the result re-reads the saved row |
| RepositorioEmpresas.DjangoEmpresaRepository.BuscarPorNit | src/litethinking/infrastructure/persistence/empresa/repository_impl.py:24-29 | None iff the nit is absent; otherwise a fresh entity read from its row |
| RepositorioEmpresas.DjangoEmpresaRepository.Leer | src/litethinking/infrastructure/persistence/empresa/repository_impl.py:33 | one fresh entity per requested nit, in order, each read from its row |
| RepositorioEmpresas.DjangoEmpresaRepository.ListarTodas | src/litethinking/infrastructure/persistence/empresa/repository_impl.py:31-33 | every stored company exactly once, each read from its row |
| RepositorioEmpresas.DjangoEmpresaRepository.Eliminar | src/litethinking/infrastructure/persistence/empresa/repository_impl.py:35-43 | false and no change for an absent nit; the PROTECT error and no change while products refer to it; otherwise true and only that row removed |
| RepositorioEmpresas.DjangoEmpresaRepository.Existe | src/litethinking/infrastructure/persistence/empresa/repository_impl.py:45-46 | true iff the nit is stored, which is when `BuscarPorNit` finds it |
| RepositorioProductos.PasoLectura | src/litethinking/infrastructure/persistence/producto/repository_impl.py:60-63 | appending the next row's price keeps currencies unique and extends the rows read so far by that currency |
| RepositorioProductos.LeerPrecios | src/litethinking/infrastructure/persistence/producto/repository_impl.py:59-63 | the loop over the price rows yields a list with unique currencies whose rows are exactly the stored ones |
| RepositorioProductos.AEntidad | src/litethinking/infrastructure/persistence/producto/repository_impl.py:58-71 | a fresh valid entity with the row's fields, `descripcion` "" and prices that read back from the rows |
| RepositorioProductos.LecturasEquivalentes | src/litethinking/infrastructure/persistence/producto/repository_impl.py:60 | two lists read from the same rows answer every price lookup alike, whatever the storage order |
| RepositorioProductos.GuardadoSeLee | src/litethinking/infrastructure/persistence/producto/repository_impl.py:20-26 | a price list saved and read back answers every lookup as before saving |
| RepositorioProductos.DjangoProductoRepository.Leer | src/litethinking/infrastructure/persistence/producto/repository_impl.py:39 | one fresh entity per requested code, in order, each read from its rows |
| RepositorioProductos.DjangoProductoRepository.Guardar | src/litethinking/infrastructure/persistence/producto/repository_impl.py:10-28 | upsert by code: that product row becomes the entity's fields and its price rows become exactly the entity's prices; nothing else changes |
| RepositorioProductos.DjangoProductoRepository.ReemplazarPrecios | src/litethinking/infrastructure/persistence/producto/repository_impl.py:20-26 | delete-then-create leaves exactly the given prices as the product's rows |
| RepositorioProductos.DjangoProductoRepository.BuscarPorCodigo | src/litethinking/infrastructure/persistence/producto/repository_impl.py:30-35 | None iff the code is absent; otherwise a fresh entity read from its rows |
| RepositorioProductos.DjangoProductoRepository.ListarTodos | src/litethinking/infrastructure/persistence/producto/repository_impl.py:37-39 | every stored product exactly once, each read from its rows |
| RepositorioProductos.DjangoProductoRepository.ListarPorEmpresa | src/litethinking/infrastructure/persistence/producto/repository_impl.py:41-45 | exactly the products of company n, once each, read from their rows |
| RepositorioProductos.DjangoProductoRepository.Eliminar | src/litethinking/infrastructure/persistence/producto/repository_impl.py:47-53 | true iff the product existed, and then only it and its price rows are removed; false leaves the store unchanged |
| RepositorioProductos.DjangoProductoRepository.Existe | src/litethinking/infrastructure/persistence/producto/repository_impl.py:55-56 | true iff the code is stored, which is when `BuscarPorCodigo` finds it |
| CasosEmpresa.Alta | src/litethinking/application/use_cases/empresa_use_cases.py:12-19 | creation succeeds iff the nit is new and the fields are valid; a taken nit gives "already exists", otherwise the validation error; the new row is valid and holds exactly the given fields |
| CasosEmpresa.DuplicadoAntesQueCampos | src/litethinking/application/use_cases/empresa_use_cases.py:14-17 | with a taken nit the answer is "already exists" whatever the fields, and with the nit free it would depend only on the fields |
| CasosEmpresa.AltaConservaTablas | src/litethinking/application/use_cases/empresa_use_cases.py:17-19 | a successful creation keeps the store invariant and adds exactly one company |
| CasosEmpresa.Crear | src/litethinking/application/use_cases/empresa_use_cases.py:12-19 | the outcome is `Alta` of the old table; on failure the store is unchanged; on success only the new row is added, with exactly the given fields |
| CasosEmpresa.Obtener | src/litethinking/application/use_cases/empresa_use_cases.py:27-28 | the stored company, or None iff absent |
| CasosEmpresa.Listar | src/litethinking/application/use_cases/empresa_use_cases.py:36-37 | every stored company, each read from its row |
| CasosEmpresa.SoloCambianLosSuministrados | src/litethinking/application/use_cases/empresa_use_cases.py:57-64 | the update succeeds iff every supplied field is valid, and then exactly the supplied fields take the new values |
| CasosEmpresa.PrimerErrorDecide | src/litethinking/application/use_cases/empresa_use_cases.py:57-62 | the first invalid supplied field, in the order nombre, direccion, telefono, gives the error |
| CasosEmpresa.ActualizarSinCambios | src/litethinking/application/use_cases/empresa_use_cases.py:57-64 | an update with nothing supplied changes nothing, and repeating a successful update changes nothing more |
| CasosEmpresa.ActualizadaValida | src/litethinking/domain/entities/empresa.py:43-56 | a successful update of a valid company gives a valid company |
| CasosEmpresa.AplicarCambios | src/litethinking/application/use_cases/empresa_use_cases.py:57-62 | the entity's mutator calls give exactly the `Actualizada` result, and the entity stays valid |
| CasosEmpresa.Actualizar | src/litethinking/application/use_cases/empresa_use_cases.py:45-64 | an unknown nit gives "does not exist"; otherwise the outcome is `Actualizada` of the stored row; any error leaves the store unchanged; success rewrites only that row |
| CasosEmpresa.Eliminar | src/litethinking/application/use_cases/empresa_use_cases.py:72-73 | true iff the company existed and no product refers to it, and then only it is removed; the PROTECT error iff products refer to it |
| CasosProducto.AltaProducto | src/litethinking/application/use_cases/producto_use_cases.py:19-40 | a taken code fails first, then an unknown company, then entity validation; on success the row has the given fields and `caracteristicas or ""` |
| CasosProducto.AltaProductoConservaTablas | src/litethinking/application/use_cases/producto_use_cases.py:33-40 | a successful creation keeps the store invariant and adds exactly one product, with no prices |
| CasosProducto.NitEmpresaNuncaDecide | src/litethinking/application/use_cases/producto_use_cases.py:30-37 | in a valid store the entity's "company nit required" check is never what fails: the existence check catches a blank nit first |
| CasosProducto.Crear | src/litethinking/application/use_cases/producto_use_cases.py:19-40 | the outcome is `AltaProducto` of the old tables; on failure the store is unchanged; on success one product with no prices is added and nothing else changes |
| CasosProducto.Obtener | src/litethinking/application/use_cases/producto_use_cases.py:48-49 | the stored product, or None iff absent |
| CasosProducto.Listados | src/litethinking/application/use_cases/producto_use_cases.py:57-61 | a non-empty nit selects exactly that company's products; None or "" selects all of them |
| CasosProducto.ListadosPorEmpresaParticionan | src/litethinking/application/use_cases/producto_use_cases.py:59-61 | each product is in its own company's listing and in no other; the unfiltered listing has everything |
| CasosProducto.Listar | src/litethinking/application/use_cases/producto_use_cases.py:57-61 | the listed codes are exactly `Listados`, once each, each read from its rows |
| CasosProducto.PreciosAgregados | src/litethinking/application/use_cases/producto_use_cases.py:76-83 | an unknown code fails first, then an invalid amount; on success the product's rows gain or replace exactly currency m with v |
| CasosProducto.PrecioLeidoTrasAgregar | src/litethinking/application/use_cases/producto_use_cases.py:76-83 | read back after the addition, the product has exactly one price in m, equal to v, and every other currency's lookup is as before |
| CasosProducto.UltimoPrecioGana | src/litethinking/application/use_cases/producto_use_cases.py:80-83 | adding v1 and then v2 in the same currency is the same as adding v2 alone |
| CasosProducto.AgregarPrecio | src/litethinking/application/use_cases/producto_use_cases.py:69-83 | the outcome is `PreciosAgregados` of the old tables; on failure the store is unchanged; on success only that product's price rows change |
| CasosProducto.Eliminar | src/litethinking/application/use_cases/producto_use_cases.py:91-92 | true iff the product existed; afterwards it and its prices are absent; false leaves the store unchanged |
| Formato.ConMiles | src/litethinking/presentation/api/inventario/views.py:172 | `f"{n:,}"`: digits and separators only, groups of three after a first group of one to three digits, no leading zero unless the number is 0, reading back as n |
| Formato.GrupoAnadido | src/litethinking/presentation/api/inventario/views.py:172 | appending a separator and a three-digit group multiplies the value by a thousand, plus the group, and keeps the grouping |
| Formato.TripleIntercambia | src/litethinking/presentation/api/inventario/views.py:172 | on text without 'X', the three replacements exchange ',' and '.' exactly |
| Formato.TripleConMarcador | src/litethinking/presentation/api/inventario/views.py:172 | the 'X' marker is why the exchange needs text without 'X': the replacements turn "X" into ".", which an exchange would leave as "X" |
| Formato.MilesIntercambiados | src/litethinking/presentation/api/inventario/views.py:172 | exchanging separators in the ','-grouped number gives the '.'-grouped number |
| Formato.FormatoMontoCorrecto | src/litethinking/presentation/api/inventario/views.py:172 | the amount is '.'-grouped thousands, a decimal ',' and two decimals, and its digits read back as the amount in hundredths |
| Formato.Centavos | src/litethinking/presentation/api/inventario/views.py:172 | the whole hundredths of a non-negative amount, within one hundredth below it |
| Formato.LineaPrecioSeLee | src/litethinking/presentation/api/inventario/views.py:173 | a price line is the currency code, ": ", then an amount that reads back as the price in hundredths |
| Correo.PrimeraArroba | src/litethinking/presentation/api/inventario/views.py:34 | the index of the first '@', or the length when there is none |
| Correo.UltimoPunto | src/litethinking/presentation/api/inventario/views.py:34 | the index of the last '.', or the length when there is none |
| Correo.ValidarEmailCorrecto | src/litethinking/presentation/api/inventario/views.py:33-35 | the check, which splits at the first '@' and the last '.', accepts exactly the strings L@D.T with L in `[A-Za-z0-9._%+-]+`, D in `[A-Za-z0-9.-]+` and T two or more letters |
| Correo.PosicionesForzadas | src/litethinking/presentation/api/inventario/views.py:34 | any split that matches the pattern puts the '@' at the first one and the '.' at the last one |
| Correo.EjemploValido | src/litethinking/presentation/api/inventario/views.py:34 | "ana@lite.co" matches |
| Correo.EjemploSinExtension | src/litethinking/presentation/api/inventario/views.py:34 | "ana@lite" does not match |
| Inventario.DatosDeTodos | src/litethinking/presentation/api/inventario/views.py:168 | the printed fields of each product, in list order |
| Inventario.CeldaCaracteristicas | src/litethinking/presentation/api/inventario/views.py:178-180 | the cell is never longer than 50; empty becomes "N/A"; up to 50 characters are kept; longer text keeps its first 47 followed by "..." |
| Inventario.Lineas | src/litethinking/presentation/api/inventario/views.py:171-173 | one price line per price, in order |
| Inventario.UnirEmpiezaPorPrimero | src/litethinking/presentation/api/inventario/views.py:174 | a `"<br/>".join` starts with its first element |
| Inventario.CeldaPreciosVacia | src/litethinking/presentation/api/inventario/views.py:169-176 | the price cell is "Sin precios" iff the product has no prices; otherwise it starts with the first price's currency code |
| Inventario.TextoPrecios | src/litethinking/presentation/api/inventario/views.py:169-176 | the loop that builds `precios_texto` yields the price cell |
| Inventario.Filas | src/litethinking/presentation/api/inventario/views.py:182-187 | one table row per product, in list order |
| Inventario.Cabecera | src/litethinking/presentation/api/inventario/views.py:152-163 | the header has eight elements, so the product table, when there is one, is the ninth element |
| Inventario.DocumentoConProductos | src/litethinking/presentation/api/inventario/views.py:165-212 | with products the document has exactly one table: the header row, then one row per product in list order, followed by a total equal to the product count |
| Inventario.DocumentoSinProductos | src/litethinking/presentation/api/inventario/views.py:213-217 | without products there is no table, only the placeholder after the header |
| Inventario.CabeceraSinTablas | src/litethinking/presentation/api/inventario/views.py:152-163 | the header holds no table |
| Inventario.GenerarDocumento | src/litethinking/presentation/api/inventario/views.py:152-217 | the loops that fill `elements` and `data` build exactly `Documento` of the company, the products and the date |
| Inventario.CuatroDigitos | src/litethinking/presentation/api/inventario/views.py:254 | `%Y`: four digits reading back as the year |
| Inventario.Sello | src/litethinking/presentation/api/inventario/views.py:254 | `%Y%m%d_%H%M%S` has 15 characters |
| Inventario.FechaLegible | src/litethinking/presentation/api/inventario/views.py:255 | `%d/%m/%Y %H:%M:%S` has 19 characters |
| Inventario.SelloInyectivo | src/litethinking/presentation/api/inventario/views.py:254 | different instants, to the second, give different stamps |
| Inventario.NombreArchivoInyectivo | src/litethinking/presentation/api/inventario/views.py:306 | with stamps of equal length (all stamps have 15 characters), `inventario_<nit>_<stamp>.pdf` determines its nit and stamp |
| Inventario.CodigosDeLosDatos | src/litethinking/presentation/api/inventario/views.py:168-187 | the printed rows carry exactly the listed products' codes |
| Inventario.NitRegistradoNoVacio | src/litethinking/presentation/api/inventario/views.py:251-252 | a stored company's nit is non-empty, so the report's listing always filters by company |
| Inventario.InformeDeLoListado | src/litethinking/presentation/api/inventario/views.py:251-257 | the document built from the stored company and its listed products is that company's report |
| Inventario.TodosSeImprimen | src/litethinking/presentation/api/inventario/views.py:168-187 | every listed product prints its stored fields and prices |
| Inventario.LeidoSeImprime | src/litethinking/presentation/api/inventario/views.py:182-187 | a product read from the store prints its stored fields and prices |
| Inventario.Informe | src/litethinking/presentation/api/inventario/views.py:251-257 | lists the company's products and builds its report; the total is the number of its products |
| Inventario.GenerarInventarioPdf | src/litethinking/presentation/api/inventario/views.py:231-308 | 400 for a non-empty address of the wrong shape, checked first; then 404 for an unknown company; otherwise the company's report, as a download named `inventario_<nit>_<stamp>.pdf` or as the e-mail acknowledgement with destination, company, product count, date and the same attachment name |
| Inventario.EstadosDeLaVista | src/litethinking/presentation/api/inventario/views.py:236-249 | the answer is 400, 404 or 200 exactly under the conditions above |
| Permisos.AnonimoDenegado | src/litethinking/presentation/api/permissions.py:6-7 | all three checks deny a missing or unauthenticated user, for every method |
| Permisos.PorGrupos | src/litethinking/presentation/api/permissions.py:9-17 | `IsAdmin` holds iff the user is in "Admin"; `IsAdminOrExterno` iff in "Admin" or "Externo"; other groups never change either |
| Permisos.SoloLecturaPorMetodo | src/litethinking/presentation/api/permissions.py:24-27 | for GET, HEAD and OPTIONS `IsAdminOrReadOnly` is `IsAdminOrExterno`; for any other method it is `IsAdmin` |
| Permisos.AdminPasaTodo | src/litethinking/presentation/api/permissions.py:9-27 | an administrator passes every check for every method; an external user only reads; `IsAdminOrReadOnly` implies `IsAdminOrExterno` |

## Left out

- E-mail sending: the SMTP settings checks, `EmailMessage`, the background threads and the Vercel detection. The model answers with the acknowledgement, carrying the attachment name and the document. Whether the mail is delivered is not modelled; it is I/O and concurrency.
- PDF rendering by reportlab: styles, column widths, table styling and byte output. A document is the list of its elements with their texts.
- The 500 answer for an exception raised while building the report. The model has no raising path there.
- `datetime.now()`: the two calls become the parameters `ahora` (file-name stamp) and `despues` (printed date). Calendar validity is reduced to field ranges.
- Storage order: every listing and every price read-back is in an order the model leaves open. Contracts promise the set of rows, never their order.
- The abstract repository ports: they have no behaviour. The use cases take the Django repositories directly.
- The use-case classes: each `ejecutar` is a method taking its repositories, not a class holding them.
- HTTP glue, authentication, serializers, migrations and the admin: they are outside this core.
- Formato.Centavos: `f"{v:,.2f}"` rounds half to even. The model truncates to hundredths. The two agree on amounts with at most two decimals, which is all a price read back from the table can have (see the next lines).
- CasosProducto.PreciosAgregados: the price column is a decimal with two places (src/litethinking/infrastructure/persistence/producto/model.py:41), so an amount with more decimals is stored rounded to hundredths. The model stores the amount exactly. Its promises hold as stated only for amounts with at most two decimals.
- CasosProducto.PrecioLeidoTrasAgregar: "the read-back price equals v" assumes v has at most two decimals, for the same reason.
- RepositorioProductos.GuardadoSeLee: "a saved list reads back answering every lookup as before" assumes every amount has at most two decimals, for the same reason.
- RepositorioProductos.DjangoProductoRepository.Guardar: the price rows hold the entity's amounts exactly, not rounded to the column's two decimal places, for the same reason.
- Productos.ConvertirA: Python's decimal context rounding of `valor * tasa_cambio` is not modelled; the product is exact.
- Texto.Strip: whitespace is the fixed set of characters Python's `str.isspace` accepts.
- Correo.ValidarEmailCorrecto: Python's `$` also matches before one trailing newline. The view strips the address first, so the model matches the whole string.
- None where the source takes `str`: a field given as None raises in the source's `not x` test exactly as a blank one does. The model takes strings, and `Option` only where the source's signature is `Optional`.
- Price rows are keyed by `Moneda`; the stored column holds its code, and `Productos.MonedaDesde` with `Productos.CodigoIdaVuelta` shows the two are interchangeable.
- The `descripcion` column is neither written nor read by the repository. The model has no column for it, and every product read back has `descripcion` "".
- RepositorioProductos.DjangoProductoRepository.Guardar: requires unique currencies and an existing company. Those are the unique constraint and the foreign key, whose violation raises an integrity error in the source. Every caller is proved to meet both.
- RepositorioEmpresas.DjangoEmpresaRepository.Guardar, RepositorioProductos.DjangoProductoRepository.Guardar: require rows that pass entity validation. Every entity passed in is valid by construction.
- Store validity (`BaseDeDatos.Valid`) is a precondition of every operation and is preserved by each of them. Rows written outside this code are assumed to satisfy it.
