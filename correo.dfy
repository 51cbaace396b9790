/** `_validar_email` (presentation/api/inventario/views.py): whether a stripped address has
    the shape local@domain.tld that the view's regular expression describes. */
module Correo {

  predicate EsLetra(c: char) {
    'a' <= c <= 'z' || 'A' <= c <= 'Z'
  }

  predicate EsAlfanumerico(c: char) {
    EsLetra(c) || '0' <= c <= '9'
  }

  /** The class `[a-zA-Z0-9._%+-]` of the local part. */
  predicate EsDeUsuario(c: char) {
    EsAlfanumerico(c) || c == '.' || c == '_' || c == '%' || c == '+' || c == '-'
  }

  /** The class `[a-zA-Z0-9.-]` of the domain. */
  predicate EsDeDominio(c: char) {
    EsAlfanumerico(c) || c == '.' || c == '-'
  }

  /** The local part, `[a-zA-Z0-9._%+-]+`. */
  predicate Usuario(s: string) {
    s != [] && forall k | 0 <= k < |s| :: EsDeUsuario(s[k])
  }

  /** The domain before the last dot, `[a-zA-Z0-9.-]+`. */
  predicate Dominio(s: string) {
    s != [] && forall k | 0 <= k < |s| :: EsDeDominio(s[k])
  }

  /** The top-level domain, `[a-zA-Z]{2,}`. */
  predicate Extension(s: string) {
    |s| >= 2 && forall k | 0 <= k < |s| :: EsLetra(s[k])
  }

  /** The language of the anchored pattern `^[a-zA-Z0-9._%+-]+@[a-zA-Z0-9.-]+\.[a-zA-Z]{2,}$`:
      some '@' at `i` and some '.' at `j` split the address into the three parts. */
  ghost predicate Patron(s: string) {
    exists i, j | 0 <= i < j < |s| ::
      s[i] == '@' && s[j] == '.' && Usuario(s[..i]) && Dominio(s[i + 1..j]) && Extension(s[j + 1..])
  }

  /** The index of the first '@' of `s`, or `|s|` when there is none. */
  function PrimeraArroba(s: string): (i: nat)
    ensures i <= |s| && (i < |s| ==> s[i] == '@')
    ensures forall k | 0 <= k < i :: s[k] != '@'
  {
    if s == [] then 0
    else if s[0] == '@' then 0
    else 1 + PrimeraArroba(s[1..])
  }

  /** The index of the last '.' of `s`, or `|s|` when there is none. */
  function UltimoPunto(s: string): (j: nat)
    ensures j <= |s| && (j < |s| ==> s[j] == '.')
    ensures forall k | j < k < |s| :: s[k] != '.'
    ensures j == |s| ==> forall k | 0 <= k < |s| :: s[k] != '.'
  {
    if s == [] then 0
    else if s[|s| - 1] == '.' then |s| - 1
    else
      var j := UltimoPunto(s[..|s| - 1]);
      if j == |s| - 1 then |s| else j
  }

  /** `_validar_email`: the '@' can only be the first one (the local part has no '@') and the
      dot before the extension can only be the last one (the extension has no '.'), so the
      match is decided at those two positions. */
  function ValidarEmail(s: string): bool {
    var i, j := PrimeraArroba(s), UltimoPunto(s);
    i < j < |s| && Usuario(s[..i]) && Dominio(s[i + 1..j]) && Extension(s[j + 1..])
  }

  /** `_validar_email` accepts exactly the language of the pattern. */
  lemma ValidarEmailCorrecto(s: string)
    ensures ValidarEmail(s) <==> Patron(s)
  {
    if Patron(s) {
      var i, j :| 0 <= i < j < |s| && s[i] == '@' && s[j] == '.' && Usuario(s[..i])
                  && Dominio(s[i + 1..j]) && Extension(s[j + 1..]);
      PosicionesForzadas(s, i, j);
    }
  }

  /** A split that matches the pattern puts the '@' at the first one and the '.' at the
      last one. */
  lemma PosicionesForzadas(s: string, i: nat, j: nat)
    requires i < j < |s| && s[i] == '@' && s[j] == '.' && Usuario(s[..i]) && Extension(s[j + 1..])
    ensures PrimeraArroba(s) == i && UltimoPunto(s) == j
  {
    forall k | 0 <= k < i ensures s[k] != '@' {
      assert s[..i][k] == s[k];
    }
    forall k | j < k < |s| ensures s[k] != '.' {
      assert s[j + 1..][k - j - 1] == s[k];
    }
  }

  /** An address the pattern accepts. */
  lemma EjemploValido()
    ensures Patron("ana@lite.co")
  {
    var s := "ana@lite.co";
    assert s[3] == '@' && s[8] == '.';
    assert s[..3] == "ana" && s[4..8] == "lite" && s[9..] == "co";
  }

  /** An address without an extension, which the pattern rejects: it has no '.'. */
  lemma EjemploSinExtension()
    ensures !Patron("ana@lite")
  {
    var s := "ana@lite";
    assert forall k | 0 <= k < |s| :: s[k] != '.';
  }
}
