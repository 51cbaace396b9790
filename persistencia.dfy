/** The relational store behind both Django repositories, with the constraints of its
    schema (the model.py files of the persistence layer) as invariants: the company table keyed
    by nit, the product table keyed by codigo with a protected foreign key to its company,
    and the price table with its unique (producto, moneda) pair and cascade delete. */
module Persistencia {
  import opened Resultados
  import opened Productos
  import E = Empresas

  /** A row of the company table, keyed by nit. */
  datatype FilaEmpresa = FilaEmpresa(nombre: string, direccion: string, telefono: string)

  /** A row of the product table, keyed by codigo; `descripcion` is a column that the
      repository never writes nor reads, so it is not part of the model. */
  datatype FilaProducto = FilaProducto(nombre: string, caracteristicas: string, empresaId: string)

  // ---------------------------------------------------------------- price rows

  /** The price rows `guardar` inserts for a price list, one per entry, keyed by their
      currency (the column holds its code `Codigo(m)`, which `Moneda(...)` maps back, see
      `CodigoIdaVuelta`); the unique (producto, moneda) pair makes them a map. */
  function AFilas(ps: seq<Precio>): map<Moneda, real> {
    if ps == [] then map[]
    else
      var q := ps[|ps| - 1];
      AFilas(ps[..|ps| - 1])[q.moneda := q.valor]
  }

  /** A price list read back from the rows `filas`, in whatever order the storage returned
      them: at most one entry per currency, and exactly the stored pairs. */
  ghost predicate Refleja(ps: seq<Precio>, filas: map<Moneda, real>) {
    MonedasUnicas(ps) && AFilas(ps) == filas
  }

  /** Every stored price row holds a valid amount. */
  predicate FilasValidas(filas: map<Moneda, real>) {
    forall m | m in filas :: ValorValido(filas[m])
  }

  /** The rows of a list of validated prices satisfy the table's constraints. */
  lemma {:induction false} AFilasValidas(ps: seq<Precio>)
    ensures FilasValidas(AFilas(ps))
    decreases |ps|
  {
    if ps != [] {
      AFilasValidas(ps[..|ps| - 1]);
    }
  }

  /** The row of a currency holds the amount of its last entry, and exists iff some entry
      has that currency. */
  lemma {:induction false} AFilasUltimo(ps: seq<Precio>, m: Moneda)
    ensures m in AFilas(ps) <==> ConMoneda(ps, m) != []
    ensures ConMoneda(ps, m) != [] ==> AFilas(ps)[m] == ConMoneda(ps, m)[|ConMoneda(ps, m)| - 1].valor
    decreases |ps|
  {
    if ps != [] {
      AFilasUltimo(ps[..|ps| - 1], m);
    }
  }

  /** Removing one key and setting another commute. */
  lemma QuitarYPoner<K, V>(a: map<K, V>, k: K, j: K, v: V)
    requires k != j
    ensures (a - {k})[j := v] == a[j := v] - {k}
  {
  }

  /** Setting a key and then removing it is removing it; removing a key and then setting it
      is setting it. */
  lemma PonerYQuitar<K, V>(a: map<K, V>, k: K, v: V)
    ensures a[k := v] - {k} == a - {k}
    ensures (a - {k})[k := v] == a[k := v]
  {
  }

  /** Setting a new key adds exactly that key. */
  lemma ClaveNueva<K, V>(a: map<K, V>, k: K, v: V)
    requires k !in a
    ensures a[k := v].Keys == a.Keys + {k}
    ensures |a[k := v].Keys| == |a.Keys| + 1
  {
    assert a[k := v].Keys == a.Keys + {k};
  }

  /** Setting a key to the value it already holds changes nothing. */
  lemma PonerMismo<K, V>(a: map<K, V>, k: K)
    requires k in a
    ensures a[k := a[k]] == a
  {
  }

  /** One more entry sets the row of its currency. */
  lemma AFilasAnadido(ps: seq<Precio>, q: Precio)
    ensures AFilas(ps + [q]) == AFilas(ps)[q.moneda := q.valor]
  {
    assert (ps + [q])[..|ps|] == ps;
  }

  /** The inductive step of `AFilasSinMoneda` for a last entry of another currency. */
  lemma SinMonedaPasoOtra(ps: seq<Precio>, q: Precio, m: Moneda)
    requires q.moneda != m
    requires AFilas(SinMoneda(ps, m)) == AFilas(ps) - {m}
    ensures AFilas(SinMoneda(ps + [q], m)) == AFilas(ps + [q]) - {m}
  {
    var antes := AFilas(ps);
    assert (ps + [q])[..|ps|] == ps;
    assert SinMoneda(ps + [q], m) == SinMoneda(ps, m) + [q];
    AFilasAnadido(SinMoneda(ps, m), q);
    AFilasAnadido(ps, q);
    QuitarYPoner(antes, m, q.moneda, q.valor);
  }

  /** The inductive step of `AFilasSinMoneda` for a last entry of the removed currency. */
  lemma SinMonedaPasoMisma(ps: seq<Precio>, q: Precio, m: Moneda)
    requires q.moneda == m
    requires AFilas(SinMoneda(ps, m)) == AFilas(ps) - {m}
    ensures AFilas(SinMoneda(ps + [q], m)) == AFilas(ps + [q]) - {m}
  {
    var antes := AFilas(ps);
    assert (ps + [q])[..|ps|] == ps;
    assert SinMoneda(ps + [q], m) == SinMoneda(ps, m) + [];
    assert SinMoneda(ps, m) + [] == SinMoneda(ps, m);
    AFilasAnadido(ps, q);
    PonerYQuitar(antes, m, q.valor);
  }

  /** Removing a currency from the list removes its row and nothing else. */
  lemma {:induction false} AFilasSinMoneda(ps: seq<Precio>, m: Moneda)
    ensures AFilas(SinMoneda(ps, m)) == AFilas(ps) - {m}
    decreases |ps|
  {
    if ps != [] {
      var ps', q := ps[..|ps| - 1], ps[|ps| - 1];
      AFilasSinMoneda(ps', m);
      assert ps == ps' + [q];
      if q.moneda != m {
        SinMonedaPasoOtra(ps', q, m);
      } else {
        SinMonedaPasoMisma(ps', q, m);
      }
    }
  }

  /** Saving a product after `agregar_precio(p)` stores the previous rows with the row of
      `p`'s currency set to `p`'s amount. */
  lemma AFilasTrasAgregar(ps: seq<Precio>, p: Precio)
    ensures AFilas(ConPrecio(ps, p)) == AFilas(ps)[p.moneda := p.valor]
  {
    var s, k := SinMoneda(ps, p.moneda), p.moneda;
    AFilasAnadido(s, p);
    AFilasSinMoneda(ps, p.moneda);
    PonerYQuitar(AFilas(ps), k, p.valor);
  }

  /** On a list read back from the storage, `obtener_precio` finds exactly the stored row of
      the currency, whatever order the rows came back in. */
  lemma ReflejaPrimerPrecio(ps: seq<Precio>, filas: map<Moneda, real>, m: Moneda)
    requires Refleja(ps, filas)
    ensures PrimerPrecio(ps, m) == if m in filas then Some(ProductoPrecio(m, filas[m])) else None
  {
    AFilasUltimo(ps, m);
    var c := ConMoneda(ps, m);
    if c != [] {
      assert |c| <= 1;
      assert c[0] in c;
      FiltrosMiembros(ps, m, c[0]);
    }
  }

  /** Adding a price to a list read back from rows `filas` gives a list that again reflects
      `filas` with that currency's row replaced. */
  lemma ReflejaTrasAgregar(ps: seq<Precio>, filas: map<Moneda, real>, p: Precio)
    requires Refleja(ps, filas)
    ensures Refleja(ConPrecio(ps, p), filas[p.moneda := p.valor])
  {
    AFilasTrasAgregar(ps, p);
    AgregarPrecioInvariante(ps, p, p);
  }

  /** Appending an entry whose currency has no row yet keeps one entry per currency. */
  lemma UnicasAlAnadir(ps: seq<Precio>, q: Precio)
    requires MonedasUnicas(ps) && q.moneda !in AFilas(ps)
    ensures MonedasUnicas(ps + [q])
  {
    AFilasUltimo(ps, q.moneda);
    assert (ps + [q])[..|ps|] == ps;
    forall m
      ensures |ConMoneda(ps + [q], m)| <= 1
    {
      assert ConMoneda(ps + [q], m) == ConMoneda(ps, m) + if q.moneda == m then [q] else [];
    }
  }

  /** In a list with one entry per currency, no entry's currency has a row among the entries
      before it: inserting them one by one never breaks the unique (producto, moneda) pair. */
  lemma PrefijoSinMoneda(ps: seq<Precio>, k: nat)
    requires MonedasUnicas(ps) && k < |ps|
    ensures ps[k].moneda !in AFilas(ps[..k])
  {
    var m := ps[k].moneda;
    assert ps == ps[..k] + ps[k..];
    ConMonedaConcatenada(ps[..k], ps[k..], m);
    assert ps[k..][0] == ps[k];
    FiltrosMiembros(ps[k..], m, ps[k]);
    AFilasUltimo(ps[..k], m);
  }

  // ---------------------------------------------------------------- the database

  class BaseDeDatos {
    var empresas: map<string, FilaEmpresa>
    var productos: map<string, FilaProducto>
    var precios: map<string, map<Moneda, real>>

    /** The schema's constraints, and the entity checks that every row passed when it was
        saved (reading a row back re-runs them). */
    ghost predicate Valid()
      reads this
    {
      TablasValidas(empresas, productos, precios)
    }

    /** Some product row still refers to company `nit` (the PROTECT foreign key). */
    predicate Referenciada(nit: string)
      reads this
    {
      exists c | c in productos :: productos[c].empresaId == nit
    }

    /** The codes of the products of company `nit`. */
    function CodigosDe(nit: string): set<string>
      reads this
    {
      set c | c in productos && productos[c].empresaId == nit
    }

    constructor ()
      ensures Valid()
      ensures empresas == map[] && productos == map[] && precios == map[]
    {
      empresas := map[];
      productos := map[];
      precios := map[];
    }
  }

  /** The constraints on the three tables: rows that pass the entity checks, the foreign
      key from products to companies, one price row set per product, valid price rows. */
  predicate TablasValidas(empresas: map<string, FilaEmpresa>, productos: map<string, FilaProducto>,
                          precios: map<string, map<Moneda, real>>) {
    && (forall n | n in empresas :: EmpresaValida(n, empresas[n]))
    && (forall c | c in productos :: ProductoValido(c, productos[c]) && productos[c].empresaId in empresas)
    && precios.Keys == productos.Keys
    && (forall c | c in precios :: FilasValidas(precios[c]))
  }

  /** Saving a valid company row keeps the tables valid. */
  lemma TablasTrasGuardarEmpresa(empresas: map<string, FilaEmpresa>, productos: map<string, FilaProducto>,
                                 precios: map<string, map<Moneda, real>>, nit: string, f: FilaEmpresa)
    requires TablasValidas(empresas, productos, precios)
    requires EmpresaValida(nit, f)
    ensures TablasValidas(empresas[nit := f], productos, precios)
  {
  }

  /** Saving a valid product row of an existing company, with valid price rows, keeps the
      tables valid. */
  lemma TablasTrasGuardarProducto(empresas: map<string, FilaEmpresa>, productos: map<string, FilaProducto>,
                                  precios: map<string, map<Moneda, real>>, c: string, f: FilaProducto,
                                  filas: map<Moneda, real>)
    requires TablasValidas(empresas, productos, precios)
    requires ProductoValido(c, f) && f.empresaId in empresas && FilasValidas(filas)
    ensures TablasValidas(empresas, productos[c := f], precios[c := filas])
  {
  }

  predicate EmpresaValida(nit: string, f: FilaEmpresa) {
    E.CamposValidos(nit, f.nombre, f.direccion, f.telefono)
  }

  predicate ProductoValido(codigo: string, f: FilaProducto) {
    Productos.CamposValidos(codigo, f.nombre, f.empresaId)
  }

  /** The keys of a list, as a set. */
  function Elementos<T>(ns: seq<T>): set<T> {
    if ns == [] then {} else Elementos(ns[..|ns| - 1]) + {ns[|ns| - 1]}
  }

  /** No key appears twice. */
  predicate SinRepetidos<T(==)>(ns: seq<T>) {
    forall i, j | 0 <= i < j < |ns| :: ns[i] != ns[j]
  }

  /** Every entry of a list is among its elements. */
  lemma {:induction false} ElementosMiembros<T>(ns: seq<T>)
    ensures forall i | 0 <= i < |ns| :: ns[i] in Elementos(ns)
    decreases |ns|
  {
    if ns != [] {
      var ns' := ns[..|ns| - 1];
      ElementosMiembros(ns');
      assert forall i | 0 <= i < |ns'| :: ns[i] == ns'[i];
    }
  }

  /** `Elementos` as a set comprehension over the positions. */
  lemma {:induction false} ElementosPorPosicion<T>(ns: seq<T>)
    ensures Elementos(ns) == set i | 0 <= i < |ns| :: ns[i]
    decreases |ns|
  {
    if ns != [] {
      var ns' := ns[..|ns| - 1];
      ElementosPorPosicion(ns');
      assert forall i | 0 <= i < |ns'| :: ns[i] == ns'[i];
      assert (set i | 0 <= i < |ns| :: ns[i]) == (set i | 0 <= i < |ns'| :: ns'[i]) + {ns[|ns| - 1]};
    }
  }

  /** The loop state of `Ordenar`: the keys listed so far, once each, and the keys left. */
  predicate EstadoOrden<T>(ns: seq<T>, vistos: set<T>, pendientes: set<T>, claves: set<T>) {
    && vistos + pendientes == claves && vistos !! pendientes
    && Elementos(ns) == vistos && |ns| == |vistos| && SinRepetidos(ns)
  }

  /** Listing one more pending key keeps the loop state. */
  lemma PasoOrden<T>(ns: seq<T>, n: T, vistos: set<T>, pendientes: set<T>, claves: set<T>)
    requires EstadoOrden(ns, vistos, pendientes, claves) && n in pendientes
    ensures EstadoOrden(ns + [n], vistos + {n}, pendientes - {n}, claves)
  {
    ElementosMiembros(ns);
    assert (ns + [n])[..|ns|] == ns;
    assert n !in vistos;
    assert |vistos + {n}| == |vistos| + 1;
  }

  /** The order in which the storage hands back the keys of a table: every key once, in an
      order the model leaves open. */
  method Ordenar<T>(claves: set<T>) returns (ns: seq<T>)
    ensures Elementos(ns) == claves
    ensures |ns| == |claves|
    ensures SinRepetidos(ns)
  {
    ns := [];
    ghost var vistos: set<T> := {};
    var pendientes := claves;
    while pendientes != {}
      invariant EstadoOrden(ns, vistos, pendientes, claves)
      decreases pendientes
    {
      var n :| n in pendientes;
      PasoOrden(ns, n, vistos, pendientes, claves);
      ns := ns + [n];
      vistos := vistos + {n};
      pendientes := pendientes - {n};
    }
  }
}
