/** The product use cases (application/use_cases/producto_use_cases.py), each `ejecutar`
    written as a method over the product repository (and, for creation, the company
    repository, both over one database). Each method that changes the store is proved
    against a function on the table values, and the lemmas below are about those
    functions. */
module CasosProducto {
  import opened Resultados
  import opened Texto
  import opened Productos
  import opened Persistencia
  import RepositorioEmpresas
  import opened RepositorioProductos

  /** What `CrearProductoUseCase` does to the product table: the row it adds, or the error
      it raises. The duplicate check comes first, then the company check, then the entity's
      own checks. */
  function AltaProducto(empresas: map<string, FilaEmpresa>, productos: map<string, FilaProducto>,
                        codigo: string, nombre: string, empresaNit: string,
                        caracteristicas: Option<string>): (r: Result<FilaProducto>)
    ensures r.Ok? <==> codigo !in productos && empresaNit in empresas && CamposValidos(codigo, nombre, empresaNit)
    ensures codigo in productos ==> r == Err(ProductoYaExiste(codigo))
    ensures codigo !in productos && empresaNit !in empresas ==> r == Err(EmpresaNoExiste(empresaNit))
    ensures codigo !in productos && empresaNit in empresas && r.Err?
            ==> Fail(r.error) == ValidarProducto(codigo, nombre, empresaNit)
    ensures r.Ok? ==> && ProductoValido(codigo, r.value)
                      && r.value == FilaProducto(nombre, OVacio(caracteristicas), empresaNit)
  {
    if codigo in productos then Err(ProductoYaExiste(codigo))
    else if empresaNit !in empresas then Err(EmpresaNoExiste(empresaNit))
    else
      var v := ValidarProducto(codigo, nombre, empresaNit);
      if v.Fail? then Err(v.error) else Ok(FilaProducto(nombre, OVacio(caracteristicas), empresaNit))
  }

  /** A successful create keeps the store's invariant, adds exactly one product and gives it
      no price rows. */
  lemma AltaProductoConservaTablas(empresas: map<string, FilaEmpresa>, productos: map<string, FilaProducto>,
                                   precios: map<string, map<Moneda, real>>, codigo: string, nombre: string,
                                   empresaNit: string, caracteristicas: Option<string>)
    requires TablasValidas(empresas, productos, precios)
    requires AltaProducto(empresas, productos, codigo, nombre, empresaNit, caracteristicas).Ok?
    ensures var f := AltaProducto(empresas, productos, codigo, nombre, empresaNit, caracteristicas).value;
            && TablasValidas(empresas, productos[codigo := f], precios[codigo := map[]])
            && productos[codigo := f].Keys == productos.Keys + {codigo}
            && |productos[codigo := f].Keys| == |productos.Keys| + 1
  {
    var f := AltaProducto(empresas, productos, codigo, nombre, empresaNit, caracteristicas).value;
    assert ProductoValido(codigo, f) && f.empresaId in empresas && codigo !in productos;
    assert FilasValidas(map[]);
    TablasTrasGuardarProducto(empresas, productos, precios, codigo, f, map[]);
    ClaveNueva(productos, codigo, f);
  }

  /** Over a valid store the entity's own company-id check never decides: a blank nit is
      never a stored company, so the company check has already rejected it. */
  lemma NitEmpresaNuncaDecide(empresas: map<string, FilaEmpresa>, productos: map<string, FilaProducto>,
                              precios: map<string, map<Moneda, real>>, codigo: string, nombre: string,
                              empresaNit: string, caracteristicas: Option<string>)
    requires TablasValidas(empresas, productos, precios)
    ensures AltaProducto(empresas, productos, codigo, nombre, empresaNit, caracteristicas) != Err(NitEmpresaRequerido)
    ensures EsBlanco(empresaNit) && codigo !in productos
            ==> AltaProducto(empresas, productos, codigo, nombre, empresaNit, caracteristicas)
                == Err(EmpresaNoExiste(empresaNit))
  {
  }

  /** `CrearProductoUseCase.ejecutar`: `existe` on the code, `existe` on the company, the
      entity's checks, then `guardar`. A failure leaves the store as it was; a success adds
      the row `AltaProducto` gives, with no prices, and returns the product read back. */
  method Crear(productos: DjangoProductoRepository, empresas: RepositorioEmpresas.DjangoEmpresaRepository,
               codigo: string, nombre: string, empresaNit: string, caracteristicas: Option<string>)
    returns (r: Result<Producto>)
    requires productos.db == empresas.db && productos.db.Valid()
    modifies productos.db
    ensures productos.db.Valid()
    ensures var a := AltaProducto(old(productos.db.empresas), old(productos.db.productos), codigo, nombre,
                                  empresaNit, caracteristicas);
            && r.Ok? == a.Ok?
            && (r.Err? ==> a == Err(r.error) && unchanged(productos.db))
            && (r.Ok? ==> && productos.db.productos == old(productos.db.productos)[codigo := a.value]
                          && productos.db.precios == old(productos.db.precios)[codigo := map[]]
                          && productos.db.empresas == old(productos.db.empresas)
                          && fresh(r.value) && LeidoDe(r.value, codigo, a.value, map[]))
  {
    var existe := productos.Existe(codigo);
    if existe {
      return Err(ProductoYaExiste(codigo));
    }
    var empresaExiste := empresas.Existe(empresaNit);
    if !empresaExiste {
      return Err(EmpresaNoExiste(empresaNit));
    }
    var p := Producto.Nuevo(codigo, nombre, empresaNit, caracteristicas, None, None);
    if p.Err? {
      return Err(p.error);
    }
    assert AFilas(p.value.precios) == map[];
    var g := productos.Guardar(p.value);
    return Ok(g);
  }

  /** `ObtenerProductoUseCase.ejecutar`: the stored product, or `None`. */
  method Obtener(repo: DjangoProductoRepository, codigo: string) returns (r: Option<Producto>)
    requires repo.db.Valid()
    ensures r.None? <==> codigo !in repo.db.productos
    ensures r.Some? ==> fresh(r.value) && r.value.codigo == codigo && Leido(r.value, repo.db)
  {
    r := repo.BuscarPorCodigo(codigo);
  }

  /** The `if empresa_nit:` test of `ListarProductosUseCase`: only a non-empty string
      selects a company (a blank but non-empty one still does). */
  predicate FiltraPorEmpresa(empresaNit: Option<string>) {
    empresaNit.Some? && empresaNit.value != ""
  }

  /** The codes `ListarProductosUseCase` lists over the product table. */
  function Listados(productos: map<string, FilaProducto>, empresaNit: Option<string>): (r: set<string>)
    ensures r <= productos.Keys
    ensures !FiltraPorEmpresa(empresaNit) ==> r == productos.Keys
    ensures forall c | c in productos
              :: (c in r <==> !FiltraPorEmpresa(empresaNit) || productos[c].empresaId == empresaNit.value)
  {
    if FiltraPorEmpresa(empresaNit) then set c | c in productos && productos[c].empresaId == empresaNit.value
    else productos.Keys
  }

  /** Listing by company and listing everything agree: each product appears in exactly the
      listing of its own company. */
  lemma ListadosPorEmpresaParticionan(productos: map<string, FilaProducto>, c: string, nit: string)
    requires c in productos && nit != ""
    ensures c in Listados(productos, Some(nit)) <==> productos[c].empresaId == nit
    ensures c in Listados(productos, None) && c in Listados(productos, Some(""))
  {}

  /** `ListarProductosUseCase.ejecutar`: the products of the given company, or all of them
      when no company (or `""`) is given, each once. */
  method Listar(repo: DjangoProductoRepository, empresaNit: Option<string>) returns (r: seq<Producto>)
    requires repo.db.Valid()
    ensures Codigos(r) == Listados(repo.db.productos, empresaNit)
    ensures |r| == |Listados(repo.db.productos, empresaNit)|
    ensures forall i, j | 0 <= i < j < |r| :: r[i].codigo != r[j].codigo
    ensures forall i | 0 <= i < |r| :: fresh(r[i]) && Leido(r[i], repo.db)
    ensures FiltraPorEmpresa(empresaNit) ==> forall i | 0 <= i < |r| :: r[i].empresaNit == empresaNit.value
  {
    if FiltraPorEmpresa(empresaNit) {
      r := repo.ListarPorEmpresa(empresaNit.value);
    } else {
      r := repo.ListarTodos();
    }
  }

  /** What `AgregarPrecioProductoUseCase` does to the price rows of product `codigo`: the
      new rows, or the error raised. */
  function PreciosAgregados(productos: map<string, FilaProducto>, precios: map<string, map<Moneda, real>>,
                            codigo: string, m: Moneda, v: real): (r: Result<map<Moneda, real>>)
    requires codigo in productos ==> codigo in precios
    ensures r.Ok? <==> codigo in productos && ValorValido(v)
    ensures codigo !in productos ==> r == Err(ProductoNoExiste(codigo))
    ensures codigo in productos && r.Err? ==> Fail(r.error) == ValidarValor(v)
    ensures r.Ok? ==> && r.value.Keys == precios[codigo].Keys + {m}
                      && r.value[m] == v
                      && forall n | n in precios[codigo] && n != m :: r.value[n] == precios[codigo][n]
  {
    if codigo !in productos then Err(ProductoNoExiste(codigo))
    else if !ValorValido(v) then Err(ValidarValor(v).error)
    else Ok(precios[codigo][m := v])
  }

  /** Read back after a successful add, the product holds exactly one price in `m`, of
      amount `v`, and answers `obtener_precio` for every other currency as before. */
  lemma PrecioLeidoTrasAgregar(productos: map<string, FilaProducto>, precios: map<string, map<Moneda, real>>,
                               codigo: string, m: Moneda, v: real, antes: seq<Precio>, despues: seq<Precio>)
    requires codigo in productos && codigo in precios
    requires PreciosAgregados(productos, precios, codigo, m, v).Ok?
    requires Refleja(antes, precios[codigo])
    requires Refleja(despues, PreciosAgregados(productos, precios, codigo, m, v).value)
    ensures |ConMoneda(despues, m)| == 1 && ConMoneda(despues, m)[0] == ProductoPrecio(m, v)
    ensures PrimerPrecio(despues, m) == Some(ProductoPrecio(m, v))
    ensures forall n | n != m :: PrimerPrecio(despues, n) == PrimerPrecio(antes, n)
  {
    var filas := PreciosAgregados(productos, precios, codigo, m, v).value;
    ReflejaPrimerPrecio(despues, filas, m);
    PrimerPrecioEsPrimeroDelFiltro(despues, m);
    forall n | n != m ensures PrimerPrecio(despues, n) == PrimerPrecio(antes, n) {
      ReflejaPrimerPrecio(despues, filas, n);
      ReflejaPrimerPrecio(antes, precios[codigo], n);
    }
  }

  /** Two adds in the same currency, `v1` then `v2`, leave the rows a single add of `v2`
      leaves: one price in that currency, equal to `v2`. */
  lemma UltimoPrecioGana(productos: map<string, FilaProducto>, precios: map<string, map<Moneda, real>>,
                         codigo: string, m: Moneda, v1: real, v2: real)
    requires codigo in productos ==> codigo in precios
    requires PreciosAgregados(productos, precios, codigo, m, v1).Ok?
    ensures var primero := precios[codigo := PreciosAgregados(productos, precios, codigo, m, v1).value];
            PreciosAgregados(productos, primero, codigo, m, v2) == PreciosAgregados(productos, precios, codigo, m, v2)
  {
    var a := precios[codigo];
    assert a[m := v1][m := v2] == a[m := v2];
  }

  /** `AgregarPrecioProductoUseCase.ejecutar`: look the product up, build the price (which
      checks the amount), `agregar_precio` on the entity read, then `guardar` it. An
      unknown code or an invalid amount raises before `guardar`, so the store is untouched;
      otherwise only the product's price rows change, to the ones `PreciosAgregados` gives. */
  method AgregarPrecio(repo: DjangoProductoRepository, codigo: string, m: Moneda, v: real)
    returns (r: Result<Producto>)
    requires repo.db.Valid()
    modifies repo.db
    ensures repo.db.Valid()
    ensures codigo !in old(repo.db.productos) ==> r == Err(ProductoNoExiste(codigo)) && unchanged(repo.db)
    ensures var a := PreciosAgregados(old(repo.db.productos), old(repo.db.precios), codigo, m, v);
            && r.Ok? == a.Ok?
            && (r.Err? ==> a == Err(r.error) && unchanged(repo.db))
            && (r.Ok? ==> && repo.db.precios == old(repo.db.precios)[codigo := a.value]
                          && repo.db.productos == old(repo.db.productos)
                          && repo.db.empresas == old(repo.db.empresas)
                          && fresh(r.value) && Leido(r.value, repo.db))
  {
    var buscado := repo.BuscarPorCodigo(codigo);
    if buscado.None? {
      return Err(ProductoNoExiste(codigo));
    }
    var p := buscado.value;
    var q := NuevoPrecio(m, v);
    if q.Err? {
      return Err(q.error);
    }
    ghost var filas := repo.db.precios[codigo];
    ghost var ps := p.precios;
    p.AgregarPrecio(q.value);
    ReflejaTrasAgregar(ps, filas, q.value);
    assert Fila(p) == repo.db.productos[codigo];
    PonerMismo(repo.db.productos, codigo);
    var g := repo.Guardar(p);
    return Ok(g);
  }

  /** `EliminarProductoUseCase.ejecutar`: `True` iff the product existed; afterwards it and
      its price rows are gone. */
  method Eliminar(repo: DjangoProductoRepository, codigo: string) returns (b: bool)
    requires repo.db.Valid()
    modifies repo.db
    ensures repo.db.Valid()
    ensures b <==> codigo in old(repo.db.productos)
    ensures codigo !in repo.db.productos && codigo !in repo.db.precios
    ensures !b ==> unchanged(repo.db)
    ensures b ==> && repo.db.productos == old(repo.db.productos) - {codigo}
                  && repo.db.precios == old(repo.db.precios) - {codigo}
                  && repo.db.empresas == old(repo.db.empresas)
  {
    b := repo.Eliminar(codigo);
  }
}
