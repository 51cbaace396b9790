/** `DjangoEmpresaRepository` (infrastructure/persistence/empresa/repository_impl.py): the
    company port implemented over the company table. Each read builds a fresh entity from
    its row, as `_to_domain_entity` does. */
module RepositorioEmpresas {
  import opened Resultados
  import opened Empresas
  import opened Persistencia

  /** The row an entity is saved as. */
  function Fila(e: Empresa): FilaEmpresa
    reads e
  {
    FilaEmpresa(e.nombre, e.direccion, e.telefono)
  }

  /** The tax ids of a list of companies. */
  function Nits(es: seq<Empresa>): set<string> {
    if es == [] then {} else Nits(es[..|es| - 1]) + {es[|es| - 1].nit}
  }

  /** The tax ids of a list of companies are the keys it was built from, when the i-th
      company carries the i-th key. */
  lemma {:induction false} NitsSegun(es: seq<Empresa>, ns: seq<string>)
    requires |es| == |ns| && forall i | 0 <= i < |es| :: es[i].nit == ns[i]
    ensures Nits(es) == Elementos(ns)
    decreases |es|
  {
    if es != [] {
      NitsSegun(es[..|es| - 1], ns[..|ns| - 1]);
    }
  }

  /** `e` is the entity `_to_domain_entity` builds from the row `f` with tax id `nit`. */
  ghost predicate LeidaDe(e: Empresa, nit: string, f: FilaEmpresa)
    reads e
  {
    e.Valid() && e.nit == nit && Fila(e) == f
  }

  /** `e` is the entity read from its row in `db`. */
  ghost predicate Leida(e: Empresa, db: BaseDeDatos)
    reads e, db
  {
    e.nit in db.empresas && LeidaDe(e, e.nit, db.empresas[e.nit])
  }

  /** `_to_domain_entity`: a new entity with the row's fields. The row passed the entity
      checks when it was saved, so rebuilding the entity cannot fail. */
  method AEntidad(nit: string, f: FilaEmpresa) returns (r: Empresa)
    requires EmpresaValida(nit, f)
    ensures fresh(r) && LeidaDe(r, nit, f)
  {
    r := new Empresa(nit, f.nombre, f.direccion, f.telefono);
  }

  class DjangoEmpresaRepository {
    const db: BaseDeDatos

    constructor (db: BaseDeDatos)
      ensures this.db == db
    {
      this.db := db;
    }

    /** `guardar`: an upsert by nit that leaves every other company, and the other tables,
        as they were; it returns the row read back. */
    method Guardar(e: Empresa) returns (r: Empresa)
      requires db.Valid() && e.Valid()
      modifies db
      ensures db.Valid()
      ensures db.empresas == old(db.empresas)[e.nit := Fila(e)]
      ensures db.productos == old(db.productos) && db.precios == old(db.precios)
      ensures fresh(r) && LeidaDe(r, e.nit, Fila(e))
    {
      TablasTrasGuardarEmpresa(db.empresas, db.productos, db.precios, e.nit, Fila(e));
      db.empresas := db.empresas[e.nit := Fila(e)];
      r := AEntidad(e.nit, db.empresas[e.nit]);
    }

    /** `buscar_por_nit`: `None` iff no row has that nit. */
    method BuscarPorNit(nit: string) returns (r: Option<Empresa>)
      requires db.Valid()
      ensures r.None? <==> nit !in db.empresas
      ensures r.Some? ==> fresh(r.value) && r.value.nit == nit && Leida(r.value, db)
    {
      if nit !in db.empresas {
        return None;
      }
      var e := AEntidad(nit, db.empresas[nit]);
      return Some(e);
    }

    /** `_to_domain_entity` for each nit of `nits`, in that order (the list comprehension
        of `listar_todas`). */
    method Leer(nits: seq<string>) returns (r: seq<Empresa>)
      requires db.Valid()
      requires forall i | 0 <= i < |nits| :: nits[i] in db.empresas
      ensures |r| == |nits|
      ensures forall i | 0 <= i < |r| :: r[i].nit == nits[i] && fresh(r[i]) && Leida(r[i], db)
    {
      var filas := db.empresas;
      r := [];
      for k := 0 to |nits|
        invariant |r| == k
        invariant forall i | 0 <= i < k :: r[i].nit == nits[i] && fresh(r[i]) && LeidaDe(r[i], nits[i], filas[nits[i]])
      {
        var e := AEntidad(nits[k], filas[nits[k]]);
        r := r + [e];
      }
    }

    /** `listar_todas`: one entity per stored row, in the order the storage chooses. */
    method ListarTodas() returns (r: seq<Empresa>)
      requires db.Valid()
      ensures Nits(r) == db.empresas.Keys
      ensures |r| == |db.empresas.Keys|
      ensures forall i, j | 0 <= i < j < |r| :: r[i].nit != r[j].nit
      ensures forall i | 0 <= i < |r| :: fresh(r[i]) && Leida(r[i], db)
    {
      var nits := Ordenar(db.empresas.Keys);
      ElementosMiembros(nits);
      r := Leer(nits);
      NitsSegun(r, nits);
    }

    /** `eliminar`: `False` and nothing changes when the nit is absent; the storage's
        `ProtectedError` is re-raised, changing nothing, while products still refer to the
        company; otherwise the row is removed and the result is `True`. */
    method Eliminar(nit: string) returns (r: Result<bool>)
      requires db.Valid()
      modifies db
      ensures db.Valid()
      ensures nit !in old(db.empresas) ==> r == Ok(false) && unchanged(db)
      ensures nit in old(db.empresas) && old(db.Referenciada(nit)) ==> r == Err(EmpresaProtegida(nit)) && unchanged(db)
      ensures nit in old(db.empresas) && !old(db.Referenciada(nit)) ==>
                && r == Ok(true)
                && db.empresas == old(db.empresas) - {nit}
                && db.productos == old(db.productos) && db.precios == old(db.precios)
    {
      if nit !in db.empresas {
        return Ok(false);
      }
      if db.Referenciada(nit) {
        return Err(EmpresaProtegida(nit));
      }
      db.empresas := db.empresas - {nit};
      return Ok(true);
    }

    /** `existe`: whether a row has that nit, i.e. whether `buscar_por_nit` finds it. */
    method Existe(nit: string) returns (b: bool)
      ensures b <==> nit in db.empresas
    {
      b := nit in db.empresas;
    }
  }
}
