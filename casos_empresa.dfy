/** The company use cases (application/use_cases/empresa_use_cases.py), each `ejecutar`
    written as a method over the company repository. Each method that changes the store is
    proved against a function on the table values that says what the operation does to the
    company table, and the lemmas below are about those functions. */
module CasosEmpresa {
  import opened Resultados
  import opened Empresas
  import opened Persistencia
  import Productos
  import opened RepositorioEmpresas

  /** What `CrearEmpresaUseCase` does to the company table `empresas`: the row it adds, or
      the error it raises. */
  function Alta(empresas: map<string, FilaEmpresa>, nit: string, nombre: string, direccion: string,
                telefono: string): (r: Result<FilaEmpresa>)
    ensures r.Ok? <==> nit !in empresas && CamposValidos(nit, nombre, direccion, telefono)
    ensures nit in empresas ==> r == Err(EmpresaYaExiste(nit))
    ensures nit !in empresas && r.Err? ==> Fail(r.error) == ValidarEmpresa(nit, nombre, direccion, telefono)
    ensures r.Ok? ==> EmpresaValida(nit, r.value) && r.value == FilaEmpresa(nombre, direccion, telefono)
  {
    if nit in empresas then Err(EmpresaYaExiste(nit))
    else
      var v := ValidarEmpresa(nit, nombre, direccion, telefono);
      if v.Fail? then Err(v.error) else Ok(FilaEmpresa(nombre, direccion, telefono))
  }

  /** The duplicate check runs before any field check: a taken nit is reported even when
      every field is invalid, and the fields of a free nit decide alone. */
  lemma DuplicadoAntesQueCampos(empresas: map<string, FilaEmpresa>, nit: string, nombre: string,
                                direccion: string, telefono: string)
    requires nit in empresas
    ensures Alta(empresas, nit, nombre, direccion, telefono) == Err(EmpresaYaExiste(nit))
    ensures Alta(empresas - {nit}, nit, nombre, direccion, telefono).Ok?
            <==> CamposValidos(nit, nombre, direccion, telefono)
  {}

  /** A successful create keeps the store's invariant and adds exactly one company. */
  lemma AltaConservaTablas(empresas: map<string, FilaEmpresa>, productos: map<string, FilaProducto>,
                           precios: map<string, map<Productos.Moneda, real>>, nit: string, nombre: string,
                           direccion: string, telefono: string)
    requires TablasValidas(empresas, productos, precios)
    requires Alta(empresas, nit, nombre, direccion, telefono).Ok?
    ensures var f := Alta(empresas, nit, nombre, direccion, telefono).value;
            && TablasValidas(empresas[nit := f], productos, precios)
            && empresas[nit := f].Keys == empresas.Keys + {nit}
            && |empresas[nit := f].Keys| == |empresas.Keys| + 1
  {
    var f := Alta(empresas, nit, nombre, direccion, telefono).value;
    TablasTrasGuardarEmpresa(empresas, productos, precios, nit, f);
    ClaveNueva(empresas, nit, f);
  }

  /** `CrearEmpresaUseCase.ejecutar`: `existe` first, then the entity's checks, then
      `guardar`. A failure leaves the store as it was; a success adds the row `Alta` gives
      and returns the company read back with exactly the given fields. */
  method Crear(repo: DjangoEmpresaRepository, nit: string, nombre: string, direccion: string,
               telefono: string) returns (r: Result<Empresa>)
    requires repo.db.Valid()
    modifies repo.db
    ensures repo.db.Valid()
    ensures var a := Alta(old(repo.db.empresas), nit, nombre, direccion, telefono);
            && r.Ok? == a.Ok?
            && (r.Err? ==> a == Err(r.error) && unchanged(repo.db))
            && (r.Ok? ==> && repo.db.empresas == old(repo.db.empresas)[nit := a.value]
                          && repo.db.productos == old(repo.db.productos)
                          && repo.db.precios == old(repo.db.precios)
                          && fresh(r.value) && LeidaDe(r.value, nit, a.value))
  {
    var existe := repo.Existe(nit);
    if existe {
      return Err(EmpresaYaExiste(nit));
    }
    var e := Empresa.Nueva(nit, nombre, direccion, telefono);
    if e.Err? {
      return Err(e.error);
    }
    var g := repo.Guardar(e.value);
    return Ok(g);
  }

  /** `ObtenerEmpresaUseCase.ejecutar`: the stored company, or `None`. */
  method Obtener(repo: DjangoEmpresaRepository, nit: string) returns (r: Option<Empresa>)
    requires repo.db.Valid()
    ensures r.None? <==> nit !in repo.db.empresas
    ensures r.Some? ==> fresh(r.value) && r.value.nit == nit && Leida(r.value, repo.db)
  {
    r := repo.BuscarPorNit(nit);
  }

  /** `ListarEmpresasUseCase.ejecutar`: every stored company once. */
  method Listar(repo: DjangoEmpresaRepository) returns (r: seq<Empresa>)
    requires repo.db.Valid()
    ensures Nits(r) == repo.db.empresas.Keys && |r| == |repo.db.empresas.Keys|
    ensures forall i | 0 <= i < |r| :: fresh(r[i]) && Leida(r[i], repo.db)
  {
    r := repo.ListarTodas();
  }

  /** The fields `ActualizarEmpresaUseCase` may change, in the order it visits them. */
  datatype Campo = Nombre | Direccion | Telefono

  /** The entity check of `actualizar_<campo>`. */
  function Validar(c: Campo, v: string): Outcome {
    match c
    case Nombre => ValidarNombre(v)
    case Direccion => ValidarDireccion(v)
    case Telefono => ValidarTelefono(v)
  }

  /** The assignment of `actualizar_<campo>`. */
  function Poner(f: FilaEmpresa, c: Campo, v: string): FilaEmpresa {
    match c
    case Nombre => f.(nombre := v)
    case Direccion => f.(direccion := v)
    case Telefono => f.(telefono := v)
  }

  /** One `if <campo> is not None: empresa.actualizar_<campo>(...)` step: skipped after an
      earlier error or for an absent value, otherwise the field's check decides between
      raising and assigning. */
  function Paso(r: Result<FilaEmpresa>, c: Campo, nuevo: Option<string>): Result<FilaEmpresa> {
    if r.Err? || nuevo.None? then r
    else if Validar(c, nuevo.value).Fail? then Err(Validar(c, nuevo.value).error)
    else Ok(Poner(r.value, c, nuevo.value))
  }

  /** The three steps of `ActualizarEmpresaUseCase.ejecutar` applied to the stored row `f`:
      the row `guardar` receives, or the first error raised. */
  function Actualizada(f: FilaEmpresa, nombre: Option<string>, direccion: Option<string>,
                       telefono: Option<string>): Result<FilaEmpresa>
  {
    Paso(Paso(Paso(Ok(f), Nombre, nombre), Direccion, direccion), Telefono, telefono)
  }

  /** The value a field ends with: the supplied one, or the stored one when it was omitted. */
  function Elegido(nuevo: Option<string>, actual: string): string {
    if nuevo.Some? then nuevo.value else actual
  }

  /** A supplied value that passes its field's check (an omitted one always passes). */
  predicate Admisible(c: Campo, nuevo: Option<string>) {
    nuevo.None? || Validar(c, nuevo.value).Pass?
  }

  /** Only supplied fields change: the update succeeds iff every supplied value passes its
      check, and then each field holds the supplied value or keeps the stored one. */
  lemma SoloCambianLosSuministrados(f: FilaEmpresa, nombre: Option<string>, direccion: Option<string>,
                                    telefono: Option<string>)
    ensures var r := Actualizada(f, nombre, direccion, telefono);
            && (r.Ok? <==> Admisible(Nombre, nombre) && Admisible(Direccion, direccion)
                           && Admisible(Telefono, telefono))
            && (r.Ok? ==> r.value == FilaEmpresa(Elegido(nombre, f.nombre), Elegido(direccion, f.direccion),
                                                 Elegido(telefono, f.telefono)))
  {}

  /** The first supplied value that fails its check decides the error, in the order nombre,
      direccion, telefono. */
  lemma PrimerErrorDecide(f: FilaEmpresa, nombre: Option<string>, direccion: Option<string>,
                          telefono: Option<string>)
    ensures var r := Actualizada(f, nombre, direccion, telefono);
            && (!Admisible(Nombre, nombre) ==> r == Err(ValidarNombre(nombre.value).error))
            && (Admisible(Nombre, nombre) && !Admisible(Direccion, direccion)
                ==> r == Err(ValidarDireccion(direccion.value).error))
            && (Admisible(Nombre, nombre) && Admisible(Direccion, direccion) && !Admisible(Telefono, telefono)
                ==> r == Err(ValidarTelefono(telefono.value).error))
  {}

  /** An update that supplies nothing saves the row as it was, and a successful update
      applied again changes nothing more. */
  lemma ActualizarSinCambios(f: FilaEmpresa, nombre: Option<string>, direccion: Option<string>,
                             telefono: Option<string>)
    ensures Actualizada(f, None, None, None) == Ok(f)
    ensures var r := Actualizada(f, nombre, direccion, telefono);
            r.Ok? ==> Actualizada(r.value, nombre, direccion, telefono) == r
  {
    SoloCambianLosSuministrados(f, nombre, direccion, telefono);
    var r := Actualizada(f, nombre, direccion, telefono);
    if r.Ok? {
      SoloCambianLosSuministrados(r.value, nombre, direccion, telefono);
    }
  }

  /** Every successful update keeps the row valid for its nit, so the store's invariant
      survives the `guardar` that follows. */
  lemma ActualizadaValida(nit: string, f: FilaEmpresa, nombre: Option<string>, direccion: Option<string>,
                          telefono: Option<string>)
    requires EmpresaValida(nit, f)
    ensures var r := Actualizada(f, nombre, direccion, telefono);
            r.Ok? ==> EmpresaValida(nit, r.value)
  {
    SoloCambianLosSuministrados(f, nombre, direccion, telefono);
  }

  /** The three `if <campo> is not None: empresa.actualizar_<campo>(...)` statements on the
      entity read: they stop at the first check that raises, and the entity then holds the
      row `Actualizada` gives. */
  method AplicarCambios(e: Empresa, nombre: Option<string>, direccion: Option<string>,
                        telefono: Option<string>) returns (r: Outcome)
    requires e.Valid()
    modifies e
    ensures e.Valid()
    ensures Actualizada(old(Fila(e)), nombre, direccion, telefono) == if r.Pass? then Ok(Fila(e)) else Err(r.error)
  {
    ghost var a := Ok(Fila(e));
    if nombre.Some? {
      r := e.ActualizarNombre(nombre.value);
      if r.Fail? {
        return;
      }
    }
    a := Paso(a, Nombre, nombre);
    assert a == Ok(Fila(e));
    if direccion.Some? {
      r := e.ActualizarDireccion(direccion.value);
      if r.Fail? {
        return;
      }
    }
    a := Paso(a, Direccion, direccion);
    assert a == Ok(Fila(e));
    if telefono.Some? {
      r := e.ActualizarTelefono(telefono.value);
      if r.Fail? {
        return;
      }
    }
    a := Paso(a, Telefono, telefono);
    assert a == Ok(Fila(e));
    r := Pass;
  }

  /** `ActualizarEmpresaUseCase.ejecutar`: look the company up, apply the supplied fields in
      order on the entity read, then `guardar` it. An unknown nit or a rejected value raises
      before `guardar`, so the store is untouched (the entity that was partly updated is a
      fresh copy); otherwise the row becomes the one `Actualizada` gives and the nit keeps
      its row's key. */
  method Actualizar(repo: DjangoEmpresaRepository, nit: string, nombre: Option<string>,
                    direccion: Option<string>, telefono: Option<string>) returns (r: Result<Empresa>)
    requires repo.db.Valid()
    modifies repo.db
    ensures repo.db.Valid()
    ensures nit !in old(repo.db.empresas) ==> r == Err(EmpresaNoExiste(nit)) && unchanged(repo.db)
    ensures nit in old(repo.db.empresas) ==>
              var a := Actualizada(old(repo.db.empresas)[nit], nombre, direccion, telefono);
              && r.Ok? == a.Ok?
              && (r.Err? ==> a == Err(r.error) && unchanged(repo.db))
              && (r.Ok? ==> && repo.db.empresas == old(repo.db.empresas)[nit := a.value]
                            && repo.db.productos == old(repo.db.productos)
                            && repo.db.precios == old(repo.db.precios)
                            && fresh(r.value) && LeidaDe(r.value, nit, a.value))
  {
    var buscada := repo.BuscarPorNit(nit);
    if buscada.None? {
      return Err(EmpresaNoExiste(nit));
    }
    var e := buscada.value;
    var o := AplicarCambios(e, nombre, direccion, telefono);
    if o.Fail? {
      return Err(o.error);
    }
    var g := repo.Guardar(e);
    return Ok(g);
  }

  /** `EliminarEmpresaUseCase.ejecutar`: the repository's `eliminar`, whose storage error
      for a company that still owns products propagates. */
  method Eliminar(repo: DjangoEmpresaRepository, nit: string) returns (r: Result<bool>)
    requires repo.db.Valid()
    modifies repo.db
    ensures repo.db.Valid()
    ensures r == Ok(true) <==> nit in old(repo.db.empresas) && !old(repo.db.Referenciada(nit))
    ensures r != Ok(true) ==> unchanged(repo.db)
    ensures r == Ok(true) ==> && repo.db.empresas == old(repo.db.empresas) - {nit}
                              && repo.db.productos == old(repo.db.productos)
                              && repo.db.precios == old(repo.db.precios)
    ensures r.Err? <==> nit in old(repo.db.empresas) && old(repo.db.Referenciada(nit))
  {
    r := repo.Eliminar(nit);
  }
}
