/** `DjangoProductoRepository` (infrastructure/persistence/producto/repository_impl.py): the
    product port implemented over the product table and its price table. Each read builds a
    fresh entity from the product row and its price rows, as `_to_domain_entity` does. */
module RepositorioProductos {
  import opened Resultados
  import opened Productos
  import opened Persistencia

  /** The row a product is saved as. */
  function Fila(p: Producto): FilaProducto
    reads p
  {
    FilaProducto(p.nombre, p.caracteristicas, p.empresaNit)
  }

  /** The codes of a list of products. */
  function Codigos(ps: seq<Producto>): set<string> {
    if ps == [] then {} else Codigos(ps[..|ps| - 1]) + {ps[|ps| - 1].codigo}
  }

  /** The codes of a list of products are the keys it was built from, when the i-th
      product carries the i-th key. */
  lemma {:induction false} CodigosSegun(ps: seq<Producto>, cs: seq<string>)
    requires |ps| == |cs| && forall i | 0 <= i < |ps| :: ps[i].codigo == cs[i]
    ensures Codigos(ps) == Elementos(cs)
    decreases |ps|
  {
    if ps != [] {
      CodigosSegun(ps[..|ps| - 1], cs[..|cs| - 1]);
    }
  }

  /** `p` is the entity `_to_domain_entity` builds from the product row `f` with code `c`
      and its price rows `filas`: the row's fields, no description, and the price list in the
      order the storage returned the rows. */
  ghost predicate LeidoDe(p: Producto, c: string, f: FilaProducto, filas: map<Moneda, real>)
    reads p
  {
    && p.Valid()
    && p.codigo == c && Fila(p) == f && p.descripcion == ""
    && Refleja(p.precios, filas)
  }

  /** `p` is the entity read from its rows in `db`. */
  ghost predicate Leido(p: Producto, db: BaseDeDatos)
    reads p, db
  {
    && p.codigo in db.productos && p.codigo in db.precios
    && LeidoDe(p, p.codigo, db.productos[p.codigo], db.precios[p.codigo])
  }

  /** The rows of `filas` whose keys are in `claves`. */
  function Restriccion(filas: map<Moneda, real>, claves: set<Moneda>): (r: map<Moneda, real>)
    ensures r.Keys == filas.Keys * claves
    ensures forall c | c in r :: r[c] == filas[c]
  {
    map c | c in filas && c in claves :: filas[c]
  }

  /** A key of a list without repetitions is not among the keys before it. */
  lemma NoVistoAntes<T>(ns: seq<T>, k: nat)
    requires SinRepetidos(ns) && k < |ns|
    ensures ns[k] !in Elementos(ns[..k])
  {
    ElementosPorPosicion(ns[..k]);
  }

  /** One step of reading the price rows: the entry read from the next row keeps one entry
      per currency and extends the rows read so far by that row. */
  lemma PasoLectura(ps: seq<Precio>, q: Precio, filas: map<Moneda, real>, monedas: seq<Moneda>, k: nat)
    requires SinRepetidos(monedas) && k < |monedas| && monedas[k] in filas
    requires MonedasUnicas(ps) && AFilas(ps) == Restriccion(filas, Elementos(monedas[..k]))
    requires q.moneda == monedas[k] && q.valor == filas[monedas[k]]
    ensures MonedasUnicas(ps + [q])
    ensures AFilas(ps + [q]) == Restriccion(filas, Elementos(monedas[..k + 1]))
  {
    NoVistoAntes(monedas, k);
    UnicasAlAnadir(ps, q);
    AFilasAnadido(ps, q);
    assert monedas[..k + 1][..k] == monedas[..k];
    assert Elementos(monedas[..k + 1]) == Elementos(monedas[..k]) + {monedas[k]};
  }

  /** The loop of `_to_domain_entity` over `producto_model.precios.all()`: one price per row,
      in the storage's order. The rows passed the table's constraints, so `Moneda(...)` and
      `ProductoPrecio(...)` cannot raise. */
  method LeerPrecios(filas: map<Moneda, real>) returns (ps: seq<Precio>)
    requires FilasValidas(filas)
    ensures Refleja(ps, filas)
  {
    var monedas := Ordenar(filas.Keys);
    ElementosMiembros(monedas);
    ps := [];
    assert monedas[..0] == [];
    assert AFilas(ps) == Restriccion(filas, Elementos(monedas[..0]));
    for k := 0 to |monedas|
      invariant MonedasUnicas(ps)
      invariant AFilas(ps) == Restriccion(filas, Elementos(monedas[..k]))
    {
      var m := monedas[k];
      var q: Precio := ProductoPrecio(m, filas[m]);
      PasoLectura(ps, q, filas, monedas, k);
      ps := ps + [q];
    }
    assert monedas[..|monedas|] == monedas;
  }

  /** `_to_domain_entity`: a new entity with the row's fields and the prices read from the
      price rows. The row passed the entity checks when it was saved, so `Producto(...)`
      cannot raise. */
  method AEntidad(c: string, f: FilaProducto, filas: map<Moneda, real>) returns (r: Producto)
    requires ProductoValido(c, f) && FilasValidas(filas)
    ensures fresh(r) && LeidoDe(r, c, f, filas)
  {
    var ps := LeerPrecios(filas);
    r := new Producto(c, f.nombre, f.empresaId, Some(f.caracteristicas), None, Some(ps));
  }

  /** Two lists read back from the same rows answer `obtener_precio` alike for every
      currency, whatever order the storage chose each time. */
  lemma LecturasEquivalentes(a: seq<Precio>, b: seq<Precio>, filas: map<Moneda, real>, m: Moneda)
    requires Refleja(a, filas) && Refleja(b, filas)
    ensures PrimerPrecio(a, m) == PrimerPrecio(b, m)
  {
    ReflejaPrimerPrecio(a, filas, m);
    ReflejaPrimerPrecio(b, filas, m);
  }

  /** A saved product read back answers `obtener_precio` as the saved entity did, for every
      currency. */
  lemma GuardadoSeLee(ps: seq<Precio>, leidos: seq<Precio>, m: Moneda)
    requires MonedasUnicas(ps) && Refleja(leidos, AFilas(ps))
    ensures PrimerPrecio(leidos, m) == PrimerPrecio(ps, m)
  {
    LecturasEquivalentes(leidos, ps, AFilas(ps), m);
  }

  class DjangoProductoRepository {
    const db: BaseDeDatos

    constructor (db: BaseDeDatos)
      ensures this.db == db
    {
      this.db := db;
    }

    /** `_to_domain_entity` for each code of `codigos`, in that order (the list
        comprehensions of `listar_todos` and `listar_por_empresa`). */
    method Leer(codigos: seq<string>) returns (r: seq<Producto>)
      requires db.Valid()
      requires forall i | 0 <= i < |codigos| :: codigos[i] in db.productos
      ensures |r| == |codigos|
      ensures forall i | 0 <= i < |r| :: r[i].codigo == codigos[i] && fresh(r[i]) && Leido(r[i], db)
    {
      var filas, precios := db.productos, db.precios;
      r := [];
      for k := 0 to |codigos|
        invariant |r| == k
        invariant forall i | 0 <= i < k :: r[i].codigo == codigos[i] && fresh(r[i])
                    && LeidoDe(r[i], codigos[i], filas[codigos[i]], precios[codigos[i]])
      {
        var c := codigos[k];
        var p := AEntidad(c, filas[c], precios[c]);
        r := r + [p];
      }
    }

    /** `guardar`: an upsert of the product row by code (the description column is not
        written), then the product's price rows are deleted and one row per price is
        inserted; it returns the product read back. The caller must hand over an entity
        with one price per currency and an existing company, or the storage would raise an
        integrity error. */
    method Guardar(p: Producto) returns (r: Producto)
      requires db.Valid() && p.Valid()
      requires MonedasUnicas(p.precios) && p.empresaNit in db.empresas
      modifies db
      ensures db.Valid()
      ensures db.empresas == old(db.empresas)
      ensures db.productos == old(db.productos)[p.codigo := Fila(p)]
      ensures db.precios == old(db.precios)[p.codigo := AFilas(p.precios)]
      ensures fresh(r) && LeidoDe(r, p.codigo, Fila(p), AFilas(p.precios))
    {
      var c, f := p.codigo, Fila(p);
      AFilasValidas(p.precios);
      TablasTrasGuardarProducto(db.empresas, db.productos, db.precios, c, f, AFilas(p.precios));
      db.productos := db.productos[c := f];
      ReemplazarPrecios(c, p.precios);
      r := AEntidad(c, db.productos[c], db.precios[c]);
    }

    /** The price rows part of `guardar`: delete the product's rows, then create one row
        per price of the list. Since the list has one price per currency, no insert ever
        violates the unique (producto, moneda) pair. */
    method ReemplazarPrecios(c: string, ps: seq<Precio>)
      requires MonedasUnicas(ps)
      modifies db`precios
      ensures db.precios == old(db.precios)[c := AFilas(ps)]
    {
      db.precios := db.precios[c := map[]];
      for k := 0 to |ps|
        invariant db.precios == old(db.precios)[c := AFilas(ps[..k])]
      {
        var q := ps[k];
        PrefijoSinMoneda(ps, k);
        assert q.moneda !in db.precios[c];
        db.precios := db.precios[c := db.precios[c][q.moneda := q.valor]];
        assert ps[..k + 1][..k] == ps[..k];
      }
      assert ps[..|ps|] == ps;
    }

    /** `buscar_por_codigo`: `None` iff no row has that code. */
    method BuscarPorCodigo(c: string) returns (r: Option<Producto>)
      requires db.Valid()
      ensures r.None? <==> c !in db.productos
      ensures r.Some? ==> fresh(r.value) && r.value.codigo == c && Leido(r.value, db)
    {
      if c !in db.productos {
        return None;
      }
      var p := AEntidad(c, db.productos[c], db.precios[c]);
      return Some(p);
    }

    /** `listar_todos`: one entity per stored product, in the order the storage chooses. */
    method ListarTodos() returns (r: seq<Producto>)
      requires db.Valid()
      ensures Codigos(r) == db.productos.Keys
      ensures |r| == |db.productos.Keys|
      ensures forall i, j | 0 <= i < j < |r| :: r[i].codigo != r[j].codigo
      ensures forall i | 0 <= i < |r| :: fresh(r[i]) && Leido(r[i], db)
    {
      var codigos := Ordenar(db.productos.Keys);
      ElementosMiembros(codigos);
      r := Leer(codigos);
      CodigosSegun(r, codigos);
    }

    /** `listar_por_empresa`: one entity per product of company `nit`, in the order the
        storage chooses; an unknown nit gives the empty list. */
    method ListarPorEmpresa(nit: string) returns (r: seq<Producto>)
      requires db.Valid()
      ensures Codigos(r) == db.CodigosDe(nit)
      ensures |r| == |db.CodigosDe(nit)|
      ensures forall i, j | 0 <= i < j < |r| :: r[i].codigo != r[j].codigo
      ensures forall i | 0 <= i < |r| :: fresh(r[i]) && Leido(r[i], db) && r[i].empresaNit == nit
    {
      var codigos := Ordenar(db.CodigosDe(nit));
      ElementosMiembros(codigos);
      r := Leer(codigos);
      CodigosSegun(r, codigos);
    }

    /** `eliminar`: `False` and nothing changes when the code is absent; otherwise the
        product row is removed, its price rows with it (the cascade), and the result is
        `True`. */
    method Eliminar(c: string) returns (b: bool)
      requires db.Valid()
      modifies db
      ensures db.Valid()
      ensures b <==> c in old(db.productos)
      ensures !b ==> unchanged(db)
      ensures b ==> && db.productos == old(db.productos) - {c}
                    && db.precios == old(db.precios) - {c}
                    && db.empresas == old(db.empresas)
    {
      if c !in db.productos {
        return false;
      }
      db.productos := db.productos - {c};
      db.precios := db.precios - {c};
      return true;
    }

    /** `existe`: whether a row has that code. */
    method Existe(c: string) returns (b: bool)
      ensures b <==> c in db.productos
    {
      b := c in db.productos;
    }
  }
}
