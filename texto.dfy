/** String helpers with Python's meaning: `str.isspace`, `str.strip`, the truthiness test
    `not s or not s.strip()` used by every field validator, `str(n)` for a natural number,
    and `"".join`. */
module Texto {
  import opened Resultados

  /** The characters for which Python's `str.isspace()` holds, i.e. those `str.strip()` removes. */
  predicate EsEspacio(c: char) {
    || c == ' '
    || ('\t' <= c <= '\r')
    || ('\U{1C}' <= c <= '\U{1F}')
    || c == '\U{85}' || c == '\U{A0}' || c == '\U{1680}'
    || ('\U{2000}' <= c <= '\U{200A}')
    || c == '\U{2028}' || c == '\U{2029}' || c == '\U{202F}' || c == '\U{205F}' || c == '\U{3000}'
  }

  /** `not s or not s.strip()`: the string is empty or only whitespace. */
  predicate EsBlanco(s: string) {
    forall i | 0 <= i < |s| :: EsEspacio(s[i])
  }

  /** The first position at or after `i` that does not hold whitespace (`|s|` if none). */
  function SaltarInicio(s: string, i: nat): (k: nat)
    requires i <= |s|
    ensures i <= k <= |s|
    ensures forall j | i <= j < k :: EsEspacio(s[j])
    ensures k == |s| || !EsEspacio(s[k])
    decreases |s| - i
  {
    if i < |s| && EsEspacio(s[i]) then SaltarInicio(s, i + 1) else i
  }

  /** The end of `s[..j]` once its trailing whitespace is dropped. */
  function SaltarFinal(s: string, j: nat): (k: nat)
    requires j <= |s|
    ensures k <= j
    ensures forall m | k <= m < j :: EsEspacio(s[m])
    ensures k == 0 || !EsEspacio(s[k - 1])
  {
    if j > 0 && EsEspacio(s[j - 1]) then SaltarFinal(s, j - 1) else j
  }

  /** `s.strip()`: the text between the first and the last character that is not whitespace.
      It is empty exactly when `s` is blank, otherwise neither starts nor ends with whitespace,
      and what was cut off on either side is whitespace. */
  function Strip(s: string): (r: string)
    ensures r == [] <==> EsBlanco(s)
    ensures r != [] ==> !EsEspacio(r[0]) && !EsEspacio(r[|r| - 1])
    ensures |r| <= |s|
    ensures exists i | 0 <= i <= |s| - |r| :: r == s[i..i + |r|] && EsBlanco(s[..i]) && EsBlanco(s[i + |r|..])
  {
    var a := SaltarInicio(s, 0);
    if a == |s| then
      assert EsBlanco(s[..|s|]) && s[|s|..] == [];
      []
    else
      var b := SaltarFinal(s, |s|);
      var r := s[a..b];
      assert r == s[a..a + |r|] && EsBlanco(s[..a]) && EsBlanco(s[a + |r|..]);
      r
  }

  /** Stripping twice is stripping once. */
  lemma {:induction false} StripIdempotente(s: string)
    ensures Strip(Strip(s)) == Strip(s)
  {
    var r := Strip(s);
    if r != [] {
      assert SaltarInicio(r, 0) == 0;
      assert SaltarFinal(r, |r|) == |r|;
      assert r[0..|r|] == r;
    }
  }

  predicate EsDigito(c: char) {
    '0' <= c <= '9'
  }

  function Digito(d: nat): (c: char)
    requires d < 10
    ensures EsDigito(c) && c as int - '0' as int == d
  {
    ('0' as int + d) as char
  }

  predicate SoloDigitos(s: string) {
    forall i | 0 <= i < |s| :: EsDigito(s[i])
  }

  /** The number read from the decimal digits of `s`, skipping every other character
      (the thousands and decimal separators of a formatted amount). */
  function Valor(s: string): nat {
    if s == [] then 0
    else
      var c := s[|s| - 1];
      if EsDigito(c) then Valor(s[..|s| - 1]) * 10 + (c as int - '0' as int)
      else Valor(s[..|s| - 1])
  }

  /** How many decimal digits `s` holds. */
  function CuentaDigitos(s: string): nat {
    if s == [] then 0
    else CuentaDigitos(s[..|s| - 1]) + if EsDigito(s[|s| - 1]) then 1 else 0
  }

  function Potencia10(k: nat): (r: nat)
    ensures r >= 1
  {
    if k == 0 then 1 else 10 * Potencia10(k - 1)
  }

  /** Reading one more character: a digit shifts the value left, anything else is skipped. */
  lemma ValorAnadido(s: string, c: char)
    ensures Valor(s + [c]) == if EsDigito(c) then Valor(s) * 10 + (c as int - '0' as int) else Valor(s)
    ensures CuentaDigitos(s + [c]) == CuentaDigitos(s) + if EsDigito(c) then 1 else 0
  {
    assert (s + [c])[..|s|] == s;
  }

  /** Reading the digits of a concatenation: the left part is shifted by the digits of the right. */
  lemma {:induction false} ValorConcatenado(a: string, b: string)
    ensures Valor(a + b) == Valor(a) * Potencia10(CuentaDigitos(b)) + Valor(b)
    ensures CuentaDigitos(a + b) == CuentaDigitos(a) + CuentaDigitos(b)
    decreases |b|
  {
    if b == [] {
      assert a + b == a;
    } else {
      var b', c := b[..|b| - 1], b[|b| - 1];
      assert b == b' + [c];
      assert a + b == (a + b') + [c];
      ValorConcatenado(a, b');
      ValorAnadido(a + b', c);
      ValorAnadido(b', c);
      var p := Potencia10(CuentaDigitos(b'));
      if EsDigito(c) {
        assert Potencia10(CuentaDigitos(b)) == 10 * p;
        MultiplicacionAsociativa(Valor(a), p);
      }
    }
  }

  lemma MultiplicacionAsociativa(x: nat, p: nat)
    ensures (x * p) * 10 == x * (10 * p)
  {}

  /** `str(n)`: the decimal digits of `n`, without leading zeros. */
  function Decimal(n: nat): (r: string)
    ensures r != [] && SoloDigitos(r)
    ensures |r| > 1 ==> r[0] != '0'
    ensures Valor(r) == n && CuentaDigitos(r) == |r|
    decreases n
  {
    if n < 10 then
      var r := [Digito(n)];
      ValorAnadido([], Digito(n));
      assert [] + [Digito(n)] == r;
      r
    else
      var p := Decimal(n / 10);
      var r := p + [Digito(n % 10)];
      ValorAnadido(p, Digito(n % 10));
      r
  }

  /** Two digits, zero padded: `f"{n:02d}"` for `n < 100`. */
  function DosDigitos(n: nat): (r: string)
    requires n < 100
    ensures |r| == 2 && SoloDigitos(r) && Valor(r) == n && CuentaDigitos(r) == 2
  {
    var r := [Digito(n / 10), Digito(n % 10)];
    assert r == [] + [r[0]] + [r[1]];
    ValorAnadido([], r[0]);
    ValorAnadido([r[0]], r[1]);
    r
  }

  /** Three digits, zero padded: one thousands group of `f"{n:,}"`. */
  function TresDigitos(n: nat): (r: string)
    requires n < 1000
    ensures |r| == 3 && SoloDigitos(r) && Valor(r) == n && CuentaDigitos(r) == 3
  {
    var a, b := [Digito(n / 100)], DosDigitos(n % 100);
    ValorAnadido([], a[0]);
    assert [] + [a[0]] == a;
    ValorConcatenado(a, b);
    assert Potencia10(2) == 100;
    a + b
  }

  /** `sep.join(xs)`. */
  function Unir(xs: seq<string>, sep: string): (r: string)
    ensures xs == [] ==> r == []
    ensures |xs| == 1 ==> r == xs[0]
  {
    if xs == [] then []
    else if |xs| == 1 then xs[0]
    else Unir(xs[..|xs| - 1], sep) + sep + xs[|xs| - 1]
  }

  /** `not s or not s.strip()` first, then the length bound: the shape of every string field check
      of the two entities. */
  function CampoRequerido(s: string, maximo: nat, vacio: Error, largo: Error): (r: Outcome)
    ensures r.Pass? <==> !EsBlanco(s) && |s| <= maximo
    ensures EsBlanco(s) ==> r == Fail(vacio)
    ensures !EsBlanco(s) && |s| > maximo ==> r == Fail(largo)
  {
    if EsBlanco(s) then Fail(vacio)
    else if |s| > maximo then Fail(largo)
    else Pass
  }
}
