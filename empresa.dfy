/** The company aggregate of the domain layer (domain/entities/empresa.py): four required,
    bounded text fields, validated at construction and re-validated by every mutator. */
module Empresas {
  import opened Resultados
  import opened Texto

  /** `_validar_nit`. */
  function ValidarNit(nit: string): Outcome {
    CampoRequerido(nit, 20, NitRequerido, NitExcedeLongitud)
  }

  /** `_validar_nombre`. */
  function ValidarNombre(nombre: string): Outcome {
    CampoRequerido(nombre, 255, NombreEmpresaRequerido, NombreEmpresaExcedeLongitud)
  }

  /** `_validar_direccion`. */
  function ValidarDireccion(direccion: string): Outcome {
    CampoRequerido(direccion, 255, DireccionRequerida, DireccionExcedeLongitud)
  }

  /** `_validar_telefono`. */
  function ValidarTelefono(telefono: string): Outcome {
    CampoRequerido(telefono, 30, TelefonoRequerido, TelefonoExcedeLongitud)
  }

  /** What a company's fields must satisfy: each non-blank and within its bound. */
  predicate CamposValidos(nit: string, nombre: string, direccion: string, telefono: string) {
    && !EsBlanco(nit) && |nit| <= 20
    && !EsBlanco(nombre) && |nombre| <= 255
    && !EsBlanco(direccion) && |direccion| <= 255
    && !EsBlanco(telefono) && |telefono| <= 30
  }

  /** The four checks of `Empresa.__init__`, in order: the first failing field decides the
      error, and construction succeeds iff every field is non-blank and within its bound. */
  function ValidarEmpresa(nit: string, nombre: string, direccion: string, telefono: string): (r: Outcome)
    ensures r.Pass? <==> CamposValidos(nit, nombre, direccion, telefono)
    ensures ValidarNit(nit).Fail? ==> r == ValidarNit(nit)
    ensures ValidarNit(nit).Pass? && ValidarNombre(nombre).Fail? ==> r == ValidarNombre(nombre)
    ensures ValidarNit(nit).Pass? && ValidarNombre(nombre).Pass? && ValidarDireccion(direccion).Fail?
            ==> r == ValidarDireccion(direccion)
    ensures ValidarNit(nit).Pass? && ValidarNombre(nombre).Pass? && ValidarDireccion(direccion).Pass?
            ==> r == ValidarTelefono(telefono)
  {
    if ValidarNit(nit).Fail? then ValidarNit(nit)
    else if ValidarNombre(nombre).Fail? then ValidarNombre(nombre)
    else if ValidarDireccion(direccion).Fail? then ValidarDireccion(direccion)
    else ValidarTelefono(telefono)
  }

  class Empresa {
    const nit: string
    var nombre: string
    var direccion: string
    var telefono: string

    /** The entity invariant: all four fields pass their checks. */
    ghost predicate Valid()
      reads this
    {
      CamposValidos(nit, nombre, direccion, telefono)
    }

    /** The assignments of `__init__`, once its four checks have passed. */
    constructor (nit: string, nombre: string, direccion: string, telefono: string)
      requires CamposValidos(nit, nombre, direccion, telefono)
      ensures Valid()
      ensures this.nit == nit && this.nombre == nombre && this.direccion == direccion && this.telefono == telefono
    {
      this.nit := nit;
      this.nombre := nombre;
      this.direccion := direccion;
      this.telefono := telefono;
    }

    /** `Empresa(...)`: raises the first failing check's error, or builds the entity with
        exactly the given fields. */
    static method Nueva(nit: string, nombre: string, direccion: string, telefono: string) returns (r: Result<Empresa>)
      ensures r.Err? <==> ValidarEmpresa(nit, nombre, direccion, telefono).Fail?
      ensures r.Err? ==> Fail(r.error) == ValidarEmpresa(nit, nombre, direccion, telefono)
      ensures r.Ok? ==> fresh(r.value) && r.value.Valid()
      ensures r.Ok? ==> r.value.nit == nit && r.value.nombre == nombre
                        && r.value.direccion == direccion && r.value.telefono == telefono
    {
      var v := ValidarEmpresa(nit, nombre, direccion, telefono);
      if v.Fail? {
        return Err(v.error);
      }
      var e := new Empresa(nit, nombre, direccion, telefono);
      return Ok(e);
    }

    /** `actualizar_nombre`: the check runs before the assignment, so a failure changes
        nothing; only `nombre` may change, and the invariant is kept. */
    method ActualizarNombre(nuevo: string) returns (r: Outcome)
      requires Valid()
      modifies this`nombre
      ensures Valid()
      ensures r == ValidarNombre(nuevo)
      ensures nombre == if r.Pass? then nuevo else old(nombre)
    {
      r := ValidarNombre(nuevo);
      if r.Pass? {
        nombre := nuevo;
      }
    }

    /** `actualizar_direccion`: as `actualizar_nombre`, for `direccion`. */
    method ActualizarDireccion(nueva: string) returns (r: Outcome)
      requires Valid()
      modifies this`direccion
      ensures Valid()
      ensures r == ValidarDireccion(nueva)
      ensures direccion == if r.Pass? then nueva else old(direccion)
    {
      r := ValidarDireccion(nueva);
      if r.Pass? {
        direccion := nueva;
      }
    }

    /** `actualizar_telefono`: as `actualizar_nombre`, for `telefono`. */
    method ActualizarTelefono(nuevo: string) returns (r: Outcome)
      requires Valid()
      modifies this`telefono
      ensures Valid()
      ensures r == ValidarTelefono(nuevo)
      ensures telefono == if r.Pass? then nuevo else old(telefono)
    {
      r := ValidarTelefono(nuevo);
      if r.Pass? {
        telefono := nuevo;
      }
    }

    /** `__eq__`: two companies are equal iff their tax ids are. */
    predicate IgualA(otra: Empresa) {
      nit == otra.nit
    }

    /** The key `__hash__` hashes. */
    function ClaveHash(): string {
      nit
    }
  }

  /** Company equality is an equivalence that looks at the tax id alone, and equal companies
      hash alike. */
  lemma IgualdadPorNit(a: Empresa, b: Empresa, c: Empresa)
    ensures a.IgualA(a)
    ensures a.IgualA(b) <==> b.IgualA(a)
    ensures a.IgualA(b) && b.IgualA(c) ==> a.IgualA(c)
    ensures a.IgualA(b) <==> a.nit == b.nit
    ensures a.IgualA(b) ==> a.ClaveHash() == b.ClaveHash()
  {}

  /** One call of a client to a mutator: which field, and the value passed. */
  datatype Cambio = CambioNombre(valor: string) | CambioDireccion(valor: string) | CambioTelefono(valor: string)

  /** The three mutable fields of a company. */
  datatype Datos = Datos(nombre: string, direccion: string, telefono: string)

  /** The check the mutator of that field runs on its value. */
  function ValidarCambio(c: Cambio): Outcome {
    match c
    case CambioNombre(v) => ValidarNombre(v)
    case CambioDireccion(v) => ValidarDireccion(v)
    case CambioTelefono(v) => ValidarTelefono(v)
  }

  /** What one mutator call does to the fields: the value is assigned only when it passes. */
  function Aplicar(d: Datos, c: Cambio): Datos {
    if ValidarCambio(c).Fail? then d
    else match c
      case CambioNombre(v) => d.(nombre := v)
      case CambioDireccion(v) => d.(direccion := v)
      case CambioTelefono(v) => d.(telefono := v)
  }

  /** The fields after the calls `cs`, made in order. */
  function AplicarTodos(d: Datos, cs: seq<Cambio>): Datos {
    if cs == [] then d else Aplicar(AplicarTodos(d, cs[..|cs| - 1]), cs[|cs| - 1])
  }

  predicate DatosValidos(nit: string, d: Datos) {
    CamposValidos(nit, d.nombre, d.direccion, d.telefono)
  }

  /** Whatever the calls and whatever each returns, valid fields stay valid; and a field no
      call passes a valid value to keeps its value. */
  lemma {:induction false} AplicarTodosValido(nit: string, d: Datos, cs: seq<Cambio>)
    requires DatosValidos(nit, d)
    ensures DatosValidos(nit, AplicarTodos(d, cs))
    ensures (forall i | 0 <= i < |cs| :: cs[i].CambioNombre? ==> ValidarCambio(cs[i]).Fail?)
            ==> AplicarTodos(d, cs).nombre == d.nombre
    ensures (forall i | 0 <= i < |cs| :: cs[i].CambioDireccion? ==> ValidarCambio(cs[i]).Fail?)
            ==> AplicarTodos(d, cs).direccion == d.direccion
    ensures (forall i | 0 <= i < |cs| :: cs[i].CambioTelefono? ==> ValidarCambio(cs[i]).Fail?)
            ==> AplicarTodos(d, cs).telefono == d.telefono
    decreases |cs|
  {
    if cs != [] {
      var ps := cs[..|cs| - 1];
      assert forall i | 0 <= i < |ps| :: ps[i] == cs[i];
      AplicarTodosValido(nit, d, ps);
    }
  }

  /** A client making any sequence of mutator calls: each call returns its field's check,
      the fields end as `AplicarTodos` says, and the company stays valid throughout. */
  method SecuenciaDeMutaciones(e: Empresa, cs: seq<Cambio>) returns (rs: seq<Outcome>)
    requires e.Valid()
    modifies e
    ensures e.Valid()
    ensures |rs| == |cs| && forall i | 0 <= i < |cs| :: rs[i] == ValidarCambio(cs[i])
    ensures Datos(e.nombre, e.direccion, e.telefono)
            == AplicarTodos(old(Datos(e.nombre, e.direccion, e.telefono)), cs)
  {
    ghost var inicial := Datos(e.nombre, e.direccion, e.telefono);
    rs := [];
    for k := 0 to |cs|
      invariant e.Valid()
      invariant |rs| == k && forall i | 0 <= i < k :: rs[i] == ValidarCambio(cs[i])
      invariant Datos(e.nombre, e.direccion, e.telefono) == AplicarTodos(inicial, cs[..k])
    {
      assert cs[..k + 1][..k] == cs[..k];
      var r;
      match cs[k] {
        case CambioNombre(v) => r := e.ActualizarNombre(v);
        case CambioDireccion(v) => r := e.ActualizarDireccion(v);
        case CambioTelefono(v) => r := e.ActualizarTelefono(v);
      }
      rs := rs + [r];
    }
    assert cs[..|cs|] == cs;
  }
}
