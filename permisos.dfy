/** The role permissions of the API (presentation/api/permissions.py): boolean checks over
    the requesting user's groups and the HTTP method. */
module Permisos {
  import opened Resultados

  /** The part of `request.user` the checks look at: whether it is authenticated and the
      names of its groups. `None` stands for a missing user. */
  datatype Usuario = Usuario(autenticado: bool, grupos: set<string>)

  const Admin: string := "Admin"
  const Externo: string := "Externo"

  /** `permissions.SAFE_METHODS`. */
  predicate MetodoSeguro(metodo: string) {
    metodo == "GET" || metodo == "HEAD" || metodo == "OPTIONS"
  }

  /** `not request.user or not request.user.is_authenticated`, negated. */
  predicate Autenticado(u: Option<Usuario>) {
    u.Some? && u.value.autenticado
  }

  /** `IsAdmin.has_permission`. */
  predicate EsAdmin(u: Option<Usuario>) {
    if !Autenticado(u) then false else Admin in u.value.grupos
  }

  /** `IsAdminOrExterno.has_permission`. */
  predicate EsAdminOExterno(u: Option<Usuario>) {
    if !Autenticado(u) then false else Admin in u.value.grupos || Externo in u.value.grupos
  }

  /** `IsAdminOrReadOnly.has_permission`. */
  predicate EsAdminOSoloLectura(u: Option<Usuario>, metodo: string) {
    if !Autenticado(u) then false
    else if MetodoSeguro(metodo) then Admin in u.value.grupos || Externo in u.value.grupos
    else Admin in u.value.grupos
  }

  /** A missing or unauthenticated user is denied by all three checks, for every method. */
  lemma AnonimoDenegado(u: Option<Usuario>, metodo: string)
    requires !Autenticado(u)
    ensures !EsAdmin(u) && !EsAdminOExterno(u) && !EsAdminOSoloLectura(u, metodo)
  {}

  /** Membership decides for an authenticated user: "Admin" for `IsAdmin`, "Admin" or
      "Externo" for `IsAdminOrExterno`; other groups never matter. */
  lemma PorGrupos(u: Usuario, otros: set<string>)
    requires u.autenticado && Admin !in otros && Externo !in otros
    ensures EsAdmin(Some(u)) <==> Admin in u.grupos
    ensures EsAdminOExterno(Some(u)) <==> Admin in u.grupos || Externo in u.grupos
    ensures EsAdmin(Some(u.(grupos := u.grupos + otros))) == EsAdmin(Some(u))
    ensures EsAdminOExterno(Some(u.(grupos := u.grupos + otros))) == EsAdminOExterno(Some(u))
  {}

  /** `IsAdminOrReadOnly` is `IsAdminOrExterno` for GET, HEAD and OPTIONS and `IsAdmin` for
      every other method. */
  lemma SoloLecturaPorMetodo(u: Option<Usuario>, metodo: string)
    ensures MetodoSeguro(metodo) ==> (EsAdminOSoloLectura(u, metodo) <==> EsAdminOExterno(u))
    ensures !MetodoSeguro(metodo) ==> (EsAdminOSoloLectura(u, metodo) <==> EsAdmin(u))
  {}

  /** An administrator passes every check for every method; an external user reads but does
      not write. */
  lemma AdminPasaTodo(u: Option<Usuario>, metodo: string)
    ensures EsAdmin(u) ==> EsAdminOExterno(u) && EsAdminOSoloLectura(u, metodo)
    ensures EsAdminOExterno(u) && !EsAdmin(u) ==> (EsAdminOSoloLectura(u, metodo) <==> MetodoSeguro(metodo))
    ensures EsAdminOSoloLectura(u, metodo) ==> EsAdminOExterno(u)
  {}
}
