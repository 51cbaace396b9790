/** The price text of the inventory report (presentation/api/inventario/views.py): an amount
    rendered with `f"{valor:,.2f}"`, whose separators the triple `str.replace` turns into the
    Spanish convention, "1.234,56". Amounts are handled as whole hundredths. */
module Formato {
  import opened Texto
  import opened Productos

  /** `f"{n:,}"` with separator `sep`: the decimal digits of `n` in groups of three from the
      right, the groups joined by `sep`. */
  function ConMiles(n: nat, sep: char): (r: string)
    requires !EsDigito(sep)
    ensures r != [] && Valor(r) == n
    ensures forall i | 0 <= i < |r| :: EsDigito(r[i]) || r[i] == sep
    ensures Agrupado(r, sep)
    ensures r[0] != '0' || r == "0"
    decreases n
  {
    if n < 1000 then
      DecimalCorto(n);
      Decimal(n)
    else
      var a, b := ConMiles(n / 1000, sep), TresDigitos(n % 1000);
      GrupoAnadido(a, sep, b);
      a + [sep] + b
  }

  /** One more group of three digits after a separator: the value shifts by a thousand and
      the grouping is kept. */
  lemma GrupoAnadido(a: string, sep: char, b: string)
    requires !EsDigito(sep) && Agrupado(a, sep) && |b| == 3 && SoloDigitos(b) && CuentaDigitos(b) == 3
    requires forall i | 0 <= i < |a| :: EsDigito(a[i]) || a[i] == sep
    ensures var r := a + [sep] + b;
            && Valor(r) == Valor(a) * 1000 + Valor(b) && Agrupado(r, sep)
            && forall i | 0 <= i < |r| :: EsDigito(r[i]) || r[i] == sep
  {
    var r := a + [sep] + b;
    ValorAnadido(a, sep);
    ValorConcatenado(a + [sep], b);
    assert Potencia10(3) == 1000;
    assert r[..|r| - 4] == a && r[|r| - 3..] == b;
    assert r[|r| - 4] == sep;
  }

  /** A number below 1000 has at most three decimal digits. */
  lemma DecimalCorto(n: nat)
    requires n < 1000
    ensures |Decimal(n)| <= 3
  {
    if n >= 10 {
      assert |Decimal(n)| == |Decimal(n / 10)| + 1;
      if n / 10 >= 10 {
        assert |Decimal(n / 10)| == |Decimal(n / 100)| + 1;
      }
    }
  }

  /** Digit groups separated by `sep`: the first group has one to three digits and every
      group after a separator has exactly three. */
  predicate Agrupado(r: string, sep: char) {
    if |r| <= 3 then r != [] && SoloDigitos(r)
    else r[|r| - 4] == sep && SoloDigitos(r[|r| - 3..]) && Agrupado(r[..|r| - 4], sep)
  }

  /** `f"{v:,.2f}"` for an amount of `c` hundredths. */
  function EnIngles(c: nat): string {
    ConMiles(c / 100, ',') + "." + DosDigitos(c % 100)
  }

  /** `s.replace(a, b)` for one-character arguments. */
  function Reemplazar(s: string, a: char, b: char): (r: string)
    ensures |r| == |s|
  {
    seq(|s|, i requires 0 <= i < |s| => if s[i] == a then b else s[i])
  }

  /** A character with ',' and '.' exchanged. */
  function Cambiado(c: char): char {
    if c == ',' then '.' else if c == '.' then ',' else c
  }

  /** The intended effect of the three replacements: ',' and '.' exchanged everywhere. */
  function Intercambiar(s: string): (r: string)
    ensures |r| == |s|
  {
    seq(|s|, i requires 0 <= i < |s| => Cambiado(s[i]))
  }

  /** `.replace(',', 'X').replace('.', ',').replace('X', '.')`. */
  function TripleReemplazo(s: string): string {
    Reemplazar(Reemplazar(Reemplazar(s, ',', 'X'), '.', ','), 'X', '.')
  }

  /** On a string without 'X' the three replacements exchange ',' and '.' exactly. */
  lemma TripleIntercambia(s: string)
    requires forall i | 0 <= i < |s| :: s[i] != 'X'
    ensures TripleReemplazo(s) == Intercambiar(s)
  {
    var t := TripleReemplazo(s);
    forall i | 0 <= i < |s| ensures t[i] == Intercambiar(s)[i] {
    }
  }

  /** The 'X' placeholder is why the argument must not contain 'X': "X" comes out as ".". */
  lemma TripleConMarcador()
    ensures TripleReemplazo("X") == "." && Intercambiar("X") == "X"
  {
    assert TripleReemplazo("X")[0] == '.';
    assert Intercambiar("X")[0] == 'X';
  }

  /** Exchanging separators distributes over concatenation. */
  lemma IntercambiarConcatenado(a: string, b: string)
    ensures Intercambiar(a + b) == Intercambiar(a) + Intercambiar(b)
  {
  }

  /** Exchanging separators leaves digits alone. */
  lemma IntercambiarCifras(s: string)
    requires SoloDigitos(s)
    ensures Intercambiar(s) == s
  {
  }

  /** The grouped digits with ',' become the grouped digits with '.'. */
  lemma {:induction false} MilesIntercambiados(n: nat)
    ensures Intercambiar(ConMiles(n, ',')) == ConMiles(n, '.')
    decreases n
  {
    if n < 1000 {
      IntercambiarCifras(Decimal(n));
    } else {
      var a, b := ConMiles(n / 1000, ','), TresDigitos(n % 1000);
      MilesIntercambiados(n / 1000);
      IntercambiarConcatenado(a + [','], b);
      IntercambiarConcatenado(a, [',']);
      IntercambiarCifras(b);
      assert Intercambiar([',']) == ['.'];
    }
  }

  /** The price amount of the report: `f"{valor:,.2f}"` followed by the three replacements. */
  function FormatoMonto(c: nat): string {
    TripleReemplazo(EnIngles(c))
  }

  /** The amount reads as '.'-separated thousands, a decimal ',' and two decimals, and its
      digits read back as the amount in hundredths. */
  lemma FormatoMontoCorrecto(c: nat)
    ensures FormatoMonto(c) == ConMiles(c / 100, '.') + "," + DosDigitos(c % 100)
    ensures Valor(FormatoMonto(c)) == c
  {
    var a, b := ConMiles(c / 100, ','), DosDigitos(c % 100);
    var s := EnIngles(c);
    assert s == a + "." + b;
    forall i | 0 <= i < |s| ensures s[i] != 'X' {
      if i < |a| {
        assert s[i] == a[i];
      } else if i > |a| {
        assert s[i] == b[i - |a| - 1];
      }
    }
    TripleIntercambia(s);
    IntercambiarConcatenado(a + ".", b);
    IntercambiarConcatenado(a, ".");
    IntercambiarCifras(b);
    assert Intercambiar(".") == ",";
    MilesIntercambiados(c / 100);
    var m := ConMiles(c / 100, '.');
    ValorAnadido(m, ',');
    ValorConcatenado(m + ",", b);
    assert Potencia10(2) == 100;
  }

  /** The amount in hundredths. Amounts read back from the price table carry at most two
      decimals, so this is exact. */
  function Centavos(v: real): (c: nat)
    requires v >= 0.0
    ensures c as real <= v * 100.0 < c as real + 1.0
  {
    (v * 100.0).Floor
  }

  /** One line of the price cell: `f"{precio.moneda.value}: {valor_formateado}"`. */
  function LineaPrecio(p: Precio): string {
    Codigo(p.moneda) + ": " + FormatoMonto(Centavos(p.valor))
  }

  /** A line starts with the currency code and ": ", and the rest reads back as the amount in
      hundredths. */
  lemma LineaPrecioSeLee(p: Precio)
    ensures var l := LineaPrecio(p);
            && |l| > 5 && l[..3] == Codigo(p.moneda) && l[3..5] == ": "
            && Valor(l[5..]) == Centavos(p.valor)
  {
    var l := LineaPrecio(p);
    assert |Codigo(p.moneda)| == 3;
    assert l[5..] == FormatoMonto(Centavos(p.valor));
    FormatoMontoCorrecto(Centavos(p.valor));
  }
}
