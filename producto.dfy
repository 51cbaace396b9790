/** The product aggregate of the domain layer (domain/entities/producto.py): the currency
    value object, the validated price, the product entity with its per-currency price list,
    and the specification functions over price lists that the repositories and use cases
    reuse. */
module Productos {
  import opened Resultados
  import opened Texto

  // ---------------------------------------------------------------- Moneda

  datatype Moneda = COP | USD | EUR

  /** `Moneda.value`, the code stored in the price table and printed in the report. */
  function Codigo(m: Moneda): string {
    match m
    case COP => "COP"
    case USD => "USD"
    case EUR => "EUR"
  }

  /** `Moneda(s)`: the currency whose code is `s`; Python raises `ValueError` otherwise. */
  function MonedaDesde(s: string): (r: Option<Moneda>)
    ensures r.Some? <==> s in {"COP", "USD", "EUR"}
    ensures r.Some? ==> Codigo(r.value) == s
  {
    if s == "COP" then Some(COP)
    else if s == "USD" then Some(USD)
    else if s == "EUR" then Some(EUR)
    else None
  }

  /** The code round-trips: reading back what was stored gives the same currency. */
  lemma {:induction false} CodigoIdaVuelta(m: Moneda)
    ensures MonedaDesde(Codigo(m)) == Some(m)
  {
    match m
    case COP =>
    case USD => assert Codigo(m) != "COP";
    case EUR => assert Codigo(m) != "COP" && Codigo(m) != "USD";
  }

  /** Distinct currencies have distinct codes. */
  lemma CodigoInyectivo(m: Moneda, n: Moneda)
    ensures Codigo(m) == Codigo(n) ==> m == n
  {
    CodigoIdaVuelta(m);
    CodigoIdaVuelta(n);
  }

  /** `Moneda.descripcion`. */
  function Descripcion(m: Moneda): (r: string)
    ensures r != Codigo(m)
  {
    match m
    case COP => "Peso colombiano"
    case USD => "Dólar"
    case EUR => "Euro"
  }

  /** Different currencies have different descriptions: the description identifies the
      currency as its code does. */
  lemma DescripcionInyectiva(m: Moneda, n: Moneda)
    ensures Descripcion(m) == Descripcion(n) ==> m == n
  {
    if m != n {
      assert Descripcion(m)[0] != Descripcion(n)[0];
    }
  }

  // ---------------------------------------------------------------- ProductoPrecio

  const ValorMaximo: real := 999999999999.99

  /** `ProductoPrecio._validar_valor` accepts exactly these amounts. */
  predicate ValorValido(v: real) {
    0.0 <= v <= ValorMaximo
  }

  datatype ProductoPrecio = ProductoPrecio(moneda: Moneda, valor: real)

  /** A price object can only exist after its amount passed validation, so a `Precio` is
      always within bounds. Equality of prices (`__eq__`) is equality of both fields. */
  type Precio = p: ProductoPrecio | ValorValido(p.valor) witness ProductoPrecio(COP, 0.0)

  /** `_validar_valor`: the negative check runs first, then the maximum. */
  function ValidarValor(v: real): (r: Outcome)
    ensures r.Pass? <==> ValorValido(v)
    ensures v < 0.0 ==> r == Fail(PrecioNegativo)
    ensures v > ValorMaximo ==> r == Fail(PrecioExcedeMaximo)
  {
    if v < 0.0 then Fail(PrecioNegativo)
    else if v > ValorMaximo then Fail(PrecioExcedeMaximo)
    else Pass
  }

  /** `ProductoPrecio(moneda, valor)`: constructible iff the amount is within bounds. */
  function NuevoPrecio(m: Moneda, v: real): (r: Result<Precio>)
    ensures r.Ok? <==> ValorValido(v)
    ensures r.Ok? ==> r.value.moneda == m && r.value.valor == v
    ensures r.Err? ==> Fail(r.error) == ValidarValor(v)
  {
    match ValidarValor(v)
    case Fail(e) => Err(e)
    case Pass => Ok(ProductoPrecio(m, v))
  }

  /** `convertir_a`: a new price in the target currency for `valor * tasa`, under the same
      bounds; the source price is a value and is left as it was. */
  function ConvertirA(p: Precio, destino: Moneda, tasa: real): (r: Result<Precio>)
    ensures r.Ok? <==> ValorValido(p.valor * tasa)
    ensures r.Ok? ==> r.value.moneda == destino && r.value.valor == p.valor * tasa
    ensures p.valor * tasa < 0.0 ==> r == Err(PrecioNegativo)
    ensures p.valor * tasa > ValorMaximo ==> r == Err(PrecioExcedeMaximo)
  {
    NuevoPrecio(destino, p.valor * tasa)
  }

  // ---------------------------------------------------------------- price lists

  /** `[p for p in ps if p.moneda != m]`. */
  function SinMoneda(ps: seq<Precio>, m: Moneda): (r: seq<Precio>)
    ensures |r| <= |ps|
  {
    if ps == [] then []
    else
      var q := ps[|ps| - 1];
      assert ps == ps[..|ps| - 1] + [q];
      SinMoneda(ps[..|ps| - 1], m) + if q.moneda != m then [q] else []
  }

  /** The entries of `ps` in currency `m`, in order. */
  function ConMoneda(ps: seq<Precio>, m: Moneda): (r: seq<Precio>)
    ensures |r| <= |ps|
  {
    if ps == [] then []
    else
      var q := ps[|ps| - 1];
      assert ps == ps[..|ps| - 1] + [q];
      ConMoneda(ps[..|ps| - 1], m) + if q.moneda == m then [q] else []
  }

  /** The invariant the price table's unique (producto, moneda) constraint and
      `agregar_precio` keep: at most one price per currency. */
  predicate MonedasUnicas(ps: seq<Precio>) {
    forall m :: |ConMoneda(ps, m)| <= 1
  }

  /** What `agregar_precio(p)` leaves in `self.precios`. */
  function ConPrecio(ps: seq<Precio>, p: Precio): seq<Precio> {
    SinMoneda(ps, p.moneda) + [p]
  }

  /** Which entries each filter keeps: `SinMoneda` exactly those of other currencies,
      `ConMoneda` exactly those of the currency. */
  lemma {:induction false} FiltrosMiembros(ps: seq<Precio>, m: Moneda, q: Precio)
    ensures q in SinMoneda(ps, m) <==> q in ps && q.moneda != m
    ensures q in ConMoneda(ps, m) <==> q in ps && q.moneda == m
    decreases |ps|
  {
    if ps != [] {
      var ps' := ps[..|ps| - 1];
      assert ps == ps' + [ps[|ps| - 1]];
      FiltrosMiembros(ps', m, q);
    }
  }

  /** What `obtener_precio(m)` returns: the first entry in currency `m`, if any. */
  function PrimerPrecio(ps: seq<Precio>, m: Moneda): (r: Option<Precio>)
    ensures r.None? <==> forall i | 0 <= i < |ps| :: ps[i].moneda != m
    ensures r.Some? ==> r.value.moneda == m && r.value in ps
  {
    var c := ConMoneda(ps, m);
    if c == [] then
      assert forall i | 0 <= i < |ps| :: ps[i].moneda != m by {
        forall i | 0 <= i < |ps| ensures ps[i].moneda != m {
          FiltrosMiembros(ps, m, ps[i]);
        }
      }
      None
    else
      FiltrosMiembros(ps, m, c[0]);
      Some(c[0])
  }

  lemma {:induction false} SinMonedaConcatenada(a: seq<Precio>, b: seq<Precio>, m: Moneda)
    ensures SinMoneda(a + b, m) == SinMoneda(a, m) + SinMoneda(b, m)
    decreases |b|
  {
    if b == [] {
      assert a + b == a;
    } else {
      var b' := b[..|b| - 1];
      assert (a + b)[..|a + b| - 1] == a + b';
      SinMonedaConcatenada(a, b', m);
    }
  }

  lemma {:induction false} ConMonedaConcatenada(a: seq<Precio>, b: seq<Precio>, m: Moneda)
    ensures ConMoneda(a + b, m) == ConMoneda(a, m) + ConMoneda(b, m)
    decreases |b|
  {
    if b == [] {
      assert a + b == a;
    } else {
      var b' := b[..|b| - 1];
      var q := b[|b| - 1];
      assert (a + b)[..|a + b| - 1] == a + b';
      assert (a + b)[|a + b| - 1] == q;
      ConMonedaConcatenada(a, b', m);
      var t := if q.moneda == m then [q] else [];
      assert ConMoneda(a + b, m) == ConMoneda(a + b', m) + t;
      assert ConMoneda(b, m) == ConMoneda(b', m) + t;
    }
  }

  /** Removing a currency leaves the entries of every other currency exactly as they were. */
  lemma {:induction false} ConMonedaTrasQuitar(ps: seq<Precio>, quitada: Moneda, m: Moneda)
    ensures ConMoneda(SinMoneda(ps, quitada), m) == if m == quitada then [] else ConMoneda(ps, m)
    decreases |ps|
  {
    if ps != [] {
      var q := ps[|ps| - 1];
      var ps' := ps[..|ps| - 1];
      ConMonedaTrasQuitar(ps', quitada, m);
      ConMonedaConcatenada(SinMoneda(ps', quitada), if q.moneda != quitada then [q] else [], m);
    }
  }

  /** `remover_precio(m)` leaves no entry in `m`, keeps the entries of every other currency
      in their order, and removing again changes nothing. */
  lemma {:induction false} RemoverPrecioCorrecto(ps: seq<Precio>, m: Moneda)
    ensures ConMoneda(SinMoneda(ps, m), m) == []
    ensures forall n | n != m :: ConMoneda(SinMoneda(ps, m), n) == ConMoneda(ps, n)
    ensures SinMoneda(SinMoneda(ps, m), m) == SinMoneda(ps, m)
    ensures PrimerPrecio(SinMoneda(ps, m), m) == None
    ensures MonedasUnicas(ps) ==> MonedasUnicas(SinMoneda(ps, m))
  {
    ConMonedaTrasQuitar(ps, m, m);
    forall n | n != m ensures ConMoneda(SinMoneda(ps, m), n) == ConMoneda(ps, n) {
      ConMonedaTrasQuitar(ps, m, n);
    }
    SinMonedaIdempotente(ps, m);
  }

  lemma {:induction false} SinMonedaIdempotente(ps: seq<Precio>, m: Moneda)
    ensures SinMoneda(SinMoneda(ps, m), m) == SinMoneda(ps, m)
    decreases |ps|
  {
    if ps != [] {
      var q := ps[|ps| - 1];
      var ps' := ps[..|ps| - 1];
      SinMonedaIdempotente(ps', m);
      SinMonedaConcatenada(SinMoneda(ps', m), if q.moneda != m then [q] else [], m);
    }
  }

  /** `agregar_precio(p)`: exactly one entry is in `p.moneda`, it is `p` and it is last;
      the entries of the other currencies are the previous ones, in the same order. */
  lemma AgregarPrecioCorrecto(ps: seq<Precio>, p: Precio)
    ensures ConMoneda(ConPrecio(ps, p), p.moneda) == [p]
    ensures ConPrecio(ps, p)[|ConPrecio(ps, p)| - 1] == p
    ensures SinMoneda(ConPrecio(ps, p), p.moneda) == SinMoneda(ps, p.moneda)
    ensures forall n | n != p.moneda :: ConMoneda(ConPrecio(ps, p), n) == ConMoneda(ps, n)
    ensures PrimerPrecio(ConPrecio(ps, p), p.moneda) == Some(p)
  {
    var s := SinMoneda(ps, p.moneda);
    ConMonedaConcatenada(s, [p], p.moneda);
    RemoverPrecioCorrecto(ps, p.moneda);
    assert ConMoneda([p], p.moneda) == [p] by { assert [p][..0] == []; }
    SinMonedaConcatenada(s, [p], p.moneda);
    assert SinMoneda([p], p.moneda) == [] by { assert [p][..0] == []; }
    SinMonedaIdempotente(ps, p.moneda);
    forall n | n != p.moneda ensures ConMoneda(ConPrecio(ps, p), n) == ConMoneda(ps, n) {
      ConMonedaConcatenada(s, [p], n);
      assert ConMoneda([p], n) == [] by { assert [p][..0] == []; }
    }
  }

  /** `agregar_precio` keeps at most one price per currency, and adding the same price twice
      is adding it once; adding two prices in one currency keeps only the second. */
  lemma AgregarPrecioInvariante(ps: seq<Precio>, p: Precio, p2: Precio)
    requires p2.moneda == p.moneda
    ensures MonedasUnicas(ps) ==> MonedasUnicas(ConPrecio(ps, p))
    ensures ConPrecio(ConPrecio(ps, p), p) == ConPrecio(ps, p)
    ensures ConPrecio(ConPrecio(ps, p), p2) == ConPrecio(ps, p2)
  {
    AgregarPrecioCorrecto(ps, p);
    if MonedasUnicas(ps) {
      forall n ensures |ConMoneda(ConPrecio(ps, p), n)| <= 1 {
        if n != p.moneda { assert |ConMoneda(ps, n)| <= 1; }
      }
    }
  }

  /** `obtener_precio` is the first entry of the currency's filter. */
  lemma PrimerPrecioEsPrimeroDelFiltro(ps: seq<Precio>, m: Moneda)
    ensures PrimerPrecio(ps, m) == if ConMoneda(ps, m) == [] then None else Some(ConMoneda(ps, m)[0])
  {}

  // ---------------------------------------------------------------- Producto

  /** `_validar_codigo`. */
  function ValidarCodigo(codigo: string): Outcome {
    CampoRequerido(codigo, 50, CodigoRequerido, CodigoExcedeLongitud)
  }

  /** `_validar_nombre`. */
  function ValidarNombre(nombre: string): Outcome {
    CampoRequerido(nombre, 255, NombreProductoRequerido, NombreProductoExcedeLongitud)
  }

  /** `_validar_empresa_nit`: required, with no length bound. */
  function ValidarEmpresaNit(nit: string): (r: Outcome)
    ensures r.Pass? <==> !EsBlanco(nit)
    ensures r.Fail? ==> r.error == NitEmpresaRequerido
  {
    if EsBlanco(nit) then Fail(NitEmpresaRequerido) else Pass
  }

  /** What a product's fields must satisfy: code and name non-blank and within their bounds,
      company nit non-blank. */
  predicate CamposValidos(codigo: string, nombre: string, empresaNit: string) {
    !EsBlanco(codigo) && |codigo| <= 50 && !EsBlanco(nombre) && |nombre| <= 255 && !EsBlanco(empresaNit)
  }

  /** The three checks of `Producto.__init__`, in order: the first failing field decides
      the error. */
  function ValidarProducto(codigo: string, nombre: string, empresaNit: string): (r: Outcome)
    ensures r.Pass? <==> CamposValidos(codigo, nombre, empresaNit)
    ensures ValidarCodigo(codigo).Fail? ==> r == ValidarCodigo(codigo)
    ensures ValidarCodigo(codigo).Pass? && ValidarNombre(nombre).Fail? ==> r == ValidarNombre(nombre)
    ensures ValidarCodigo(codigo).Pass? && ValidarNombre(nombre).Pass? ==> r == ValidarEmpresaNit(empresaNit)
  {
    if ValidarCodigo(codigo).Fail? then ValidarCodigo(codigo)
    else if ValidarNombre(nombre).Fail? then ValidarNombre(nombre)
    else ValidarEmpresaNit(empresaNit)
  }

  /** `x or ""` for an optional string. */
  function OVacio(s: Option<string>): (r: string)
    ensures r == "" <==> s == None || s == Some("")
    ensures s.Some? ==> r == s.value
  {
    if s.Some? then s.value else ""
  }

  /** `precios or []`. */
  function OSinPrecios(ps: Option<seq<Precio>>): (r: seq<Precio>)
    ensures r == [] <==> ps == None || ps == Some([])
    ensures ps.Some? ==> r == ps.value
  {
    if ps.Some? then ps.value else []
  }

  /** One step of `obtener_precio`'s search: with no entry in `m` before position `i`, the
      entry at `i` either is the first one in `m` or extends the prefix without one. */
  lemma PasoBusqueda(ps: seq<Precio>, m: Moneda, i: nat)
    requires i < |ps| && ConMoneda(ps[..i], m) == []
    ensures ps[i].moneda != m ==> ConMoneda(ps[..i + 1], m) == []
    ensures ps[i].moneda == m ==> PrimerPrecio(ps, m) == Some(ps[i])
  {
    var a, x, b := ps[..i], ps[i], ps[i + 1..];
    assert ps[..i + 1] == a + [x];
    assert [x][..0] == [];
    ConMonedaConcatenada(a, [x], m);
    if x.moneda == m {
      var c := ps[..i + 1];
      assert c + b == ps by {
        assert |c + b| == |ps|;
        forall k | 0 <= k < |ps| ensures (c + b)[k] == ps[k] {
          if k <= i { assert (c + b)[k] == c[k]; } else { assert (c + b)[k] == b[k - i - 1]; }
        }
      }
      ConMonedaConcatenada(c, b, m);
    }
  }

  class Producto {
    const codigo: string
    const empresaNit: string
    const descripcion: string
    var nombre: string
    var caracteristicas: string
    var precios: seq<Precio>

    /** The entity invariant: every validated field still passes its check. */
    ghost predicate Valid()
      reads this
    {
      CamposValidos(codigo, nombre, empresaNit)
    }

    /** The assignments of `__init__`, once its three checks have passed. */
    constructor (codigo: string, nombre: string, empresaNit: string, caracteristicas: Option<string>,
                 descripcion: Option<string>, precios: Option<seq<Precio>>)
      requires CamposValidos(codigo, nombre, empresaNit)
      ensures Valid()
      ensures this.codigo == codigo && this.nombre == nombre && this.empresaNit == empresaNit
      ensures this.caracteristicas == OVacio(caracteristicas) && this.descripcion == OVacio(descripcion)
      ensures this.precios == OSinPrecios(precios)
    {
      this.codigo := codigo;
      this.nombre := nombre;
      this.empresaNit := empresaNit;
      this.caracteristicas := OVacio(caracteristicas);
      this.descripcion := OVacio(descripcion);
      this.precios := OSinPrecios(precios);
    }

    /** `Producto(...)`: raises the first failing check's error, or builds the entity with
        empty texts and an empty price list for whatever was not given. */
    static method Nuevo(codigo: string, nombre: string, empresaNit: string, caracteristicas: Option<string>,
                        descripcion: Option<string>, precios: Option<seq<Precio>>) returns (r: Result<Producto>)
      ensures r.Err? <==> ValidarProducto(codigo, nombre, empresaNit).Fail?
      ensures r.Err? ==> Fail(r.error) == ValidarProducto(codigo, nombre, empresaNit)
      ensures r.Ok? ==> fresh(r.value) && r.value.Valid()
      ensures r.Ok? ==> r.value.codigo == codigo && r.value.nombre == nombre && r.value.empresaNit == empresaNit
      ensures r.Ok? ==> r.value.caracteristicas == OVacio(caracteristicas) && r.value.descripcion == OVacio(descripcion)
      ensures r.Ok? ==> r.value.precios == OSinPrecios(precios)
    {
      var v := ValidarProducto(codigo, nombre, empresaNit);
      if v.Fail? {
        return Err(v.error);
      }
      var p := new Producto(codigo, nombre, empresaNit, caracteristicas, descripcion, precios);
      return Ok(p);
    }

    /** `agregar_precio`: drop the entries in the price's currency, then append the price. */
    method AgregarPrecio(p: Precio)
      modifies this`precios
      ensures precios == ConPrecio(old(precios), p)
    {
      precios := SinMoneda(precios, p.moneda);
      precios := precios + [p];
    }

    /** `obtener_precio`: the first entry in currency `m`, found by a linear search. */
    method ObtenerPrecio(m: Moneda) returns (r: Option<Precio>)
      ensures r == PrimerPrecio(precios, m)
    {
      var ps := precios;
      var i := 0;
      while i < |ps|
        invariant 0 <= i <= |ps|
        invariant ConMoneda(ps[..i], m) == []
      {
        PasoBusqueda(ps, m, i);
        if ps[i].moneda == m {
          return Some(ps[i]);
        }
        i := i + 1;
      }
      assert ps[..i] == ps;
      return None;
    }

    /** `remover_precio`: drop every entry in currency `m`. */
    method RemoverPrecio(m: Moneda)
      modifies this`precios
      ensures precios == SinMoneda(old(precios), m)
    {
      precios := SinMoneda(precios, m);
    }

    /** `actualizar_nombre`: re-validates; on failure nothing changes. */
    method ActualizarNombre(nuevo: string) returns (r: Outcome)
      requires Valid()
      modifies this`nombre
      ensures Valid()
      ensures r == ValidarNombre(nuevo)
      ensures nombre == if r.Pass? then nuevo else old(nombre)
    {
      r := ValidarNombre(nuevo);
      if r.Pass? {
        nombre := nuevo;
      }
    }

    /** `actualizar_caracteristicas`: `None` and `""` both become `""`. */
    method ActualizarCaracteristicas(nuevas: Option<string>)
      modifies this`caracteristicas
      ensures caracteristicas == OVacio(nuevas)
    {
      caracteristicas := OVacio(nuevas);
    }

    /** `__eq__`: two products are equal iff their codes are; `__hash__` hashes the code. */
    predicate IgualA(otro: Producto) {
      codigo == otro.codigo
    }

    /** The key `__hash__` hashes. */
    function ClaveHash(): string {
      codigo
    }
  }

  /** Product equality is an equivalence that looks at the code alone, and equal products
      hash alike. */
  lemma IgualdadPorCodigo(a: Producto, b: Producto, c: Producto)
    ensures a.IgualA(a)
    ensures a.IgualA(b) <==> b.IgualA(a)
    ensures a.IgualA(b) && b.IgualA(c) ==> a.IgualA(c)
    ensures a.IgualA(b) <==> a.codigo == b.codigo
    ensures a.IgualA(b) ==> a.ClaveHash() == b.ClaveHash()
  {}
}
