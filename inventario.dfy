/** The inventory report of a company (presentation/api/inventario/views.py): the content of
    the document `_generar_pdf_inventario` lays out, and the decisions `generar_inventario_pdf`
    takes before and after building it. Layout, styles and PDF bytes are not modelled: a
    document is the list of its elements with their texts. */
module Inventario {
  import opened Resultados
  import opened Texto
  import opened Productos
  import opened Persistencia
  import opened Formato
  import opened Correo
  import opened Empresas
  import RepositorioEmpresas
  import opened RepositorioProductos
  import CasosEmpresa
  import CasosProducto

  /** A flowable of the document: a paragraph with its text, a vertical space (in inches), or
      a table given by the texts of its rows. */
  datatype Elemento = Parrafo(texto: string) | Espacio(pulgadas: real) | Tabla(filas: seq<seq<string>>)

  /** The company fields the report prints. */
  datatype DatosEmpresa = DatosEmpresa(nit: string, nombre: string, direccion: string, telefono: string)

  /** The product fields the report prints. */
  datatype DatosProducto = DatosProducto(codigo: string, nombre: string, caracteristicas: string,
                                         precios: seq<Precio>)

  function DatosDeEmpresa(e: Empresa): DatosEmpresa
    reads e
  {
    DatosEmpresa(e.nit, e.nombre, e.direccion, e.telefono)
  }

  function DatosDe(p: Producto): DatosProducto
    reads p
  {
    DatosProducto(p.codigo, p.nombre, p.caracteristicas, p.precios)
  }

  /** The printed fields of each product of a list, in its order. */
  function DatosDeTodos(ps: seq<Producto>): (r: seq<DatosProducto>)
    reads ps
    ensures |r| == |ps| && forall i | 0 <= i < |ps| :: r[i] == DatosDe(ps[i])
  {
    if ps == [] then [] else DatosDeTodos(ps[..|ps| - 1]) + [DatosDe(ps[|ps| - 1])]
  }

  /** The characteristics cell: `producto.caracteristicas or "N/A"`, then texts over 50
      characters cut to their first 47 followed by "...". */
  function CeldaCaracteristicas(c: string): (r: string)
    ensures |r| <= 50
    ensures c == "" ==> r == "N/A"
    ensures 0 < |c| <= 50 ==> r == c
    ensures |c| > 50 ==> |r| == 50 && r[..47] == c[..47] && r[47..] == "..."
  {
    var t := if c == "" then "N/A" else c;
    if |t| > 50 then t[..47] + "..." else t
  }

  /** The lines of the price cell, one per price, in the entity's order. */
  function Lineas(ps: seq<Precio>): (r: seq<string>)
    ensures |r| == |ps| && forall i | 0 <= i < |ps| :: r[i] == LineaPrecio(ps[i])
  {
    seq(|ps|, i requires 0 <= i < |ps| => LineaPrecio(ps[i]))
  }

  /** The price cell: the lines joined by "<br/>", or "Sin precios" for a product without
      prices. */
  function CeldaPrecios(ps: seq<Precio>): string {
    if ps == [] then "Sin precios" else Unir(Lineas(ps), "<br/>")
  }

  /** A joined list starts with its first element. */
  lemma {:induction false} UnirEmpiezaPorPrimero(xs: seq<string>, sep: string)
    requires xs != []
    ensures |xs[0]| <= |Unir(xs, sep)| && Unir(xs, sep)[..|xs[0]|] == xs[0]
    decreases |xs|
  {
    if |xs| > 1 {
      var ys := xs[..|xs| - 1];
      UnirEmpiezaPorPrimero(ys, sep);
      var u := Unir(ys, sep);
      assert Unir(xs, sep) == u + sep + xs[|xs| - 1];
      assert (u + sep + xs[|xs| - 1])[..|xs[0]|] == u[..|xs[0]|];
    }
  }

  /** The placeholder cannot be mistaken for prices: every price line starts with a currency
      code, and "Sin" is none. */
  lemma CeldaPreciosVacia(ps: seq<Precio>)
    ensures CeldaPrecios(ps) == "Sin precios" <==> ps == []
    ensures ps != [] ==> CeldaPrecios(ps)[..3] == Codigo(ps[0].moneda)
  {
    if ps != [] {
      var ls := Lineas(ps);
      var l, u := ls[0], Unir(ls, "<br/>");
      UnirEmpiezaPorPrimero(ls, "<br/>");
      LineaPrecioSeLee(ps[0]);
      assert l[..3] == Codigo(ps[0].moneda);
      assert u[..|l|] == l;
      assert u[..3] == l[..3];
      assert u[0] == Codigo(ps[0].moneda)[0];
      CodigoNoEmpiezaPorS(ps[0].moneda);
    }
  }

  lemma CodigoNoEmpiezaPorS(m: Moneda)
    ensures |Codigo(m)| == 3 && Codigo(m)[0] != 'S'
  {}

  /** The loop over `producto.precios` that appends each line to `precios_texto`, then the
      join, or the placeholder when there are no prices. */
  method TextoPrecios(ps: seq<Precio>) returns (s: string)
    ensures s == CeldaPrecios(ps)
  {
    if ps == [] {
      return "Sin precios";
    }
    var lineas: seq<string> := [];
    for k := 0 to |ps|
      invariant lineas == Lineas(ps[..k])
    {
      lineas := lineas + [LineaPrecio(ps[k])];
    }
    assert ps[..|ps|] == ps;
    s := Unir(lineas, "<br/>");
  }

  /** The header row of the table. */
  const Encabezado: seq<string> := ["Código", "Nombre", "Características", "Precios"]

  /** The table row of a product. */
  function FilaDe(p: DatosProducto): seq<string> {
    [p.codigo, p.nombre, CeldaCaracteristicas(p.caracteristicas), CeldaPrecios(p.precios)]
  }

  /** The table rows of the products, in list order. */
  function Filas(ps: seq<DatosProducto>): (r: seq<seq<string>>)
    ensures |r| == |ps| && forall i | 0 <= i < |ps| :: r[i] == FilaDe(ps[i])
  {
    seq(|ps|, i requires 0 <= i < |ps| => FilaDe(ps[i]))
  }

  const SinProductos: string := "<i>No hay productos registrados para esta empresa.</i>"

  function Total(n: nat): string {
    "<b>Total de productos:</b> " + Decimal(n)
  }

  /** The title, the company block and the generation date, between their spaces. */
  function Cabecera(e: DatosEmpresa, fecha: string): (r: seq<Elemento>)
    ensures |r| == 8
  {
    [ Parrafo("Vista de Inventario"), Espacio(0.2),
      Parrafo("<b>Empresa:</b> " + e.nombre), Parrafo("<b>NIT:</b> " + e.nit),
      Parrafo("<b>Dirección:</b> " + e.direccion), Parrafo("<b>Teléfono:</b> " + e.telefono),
      Parrafo("<b>Fecha de generación:</b> " + fecha), Espacio(0.3) ]
  }

  /** The elements after the header: the table, a space and the total when there are
      products, the placeholder paragraph otherwise. */
  function Cuerpo(ps: seq<DatosProducto>): seq<Elemento> {
    if ps == [] then [Parrafo(SinProductos)]
    else [Tabla([Encabezado] + Filas(ps)), Espacio(0.2), Parrafo(Total(|ps|))]
  }

  /** The element list `_generar_pdf_inventario` hands to `doc.build`. */
  function Documento(e: DatosEmpresa, ps: seq<DatosProducto>, fecha: string): seq<Elemento> {
    Cabecera(e, fecha) + Cuerpo(ps)
  }

  /** With products, the document has one table: the header row and then one row per
      product in list order; after it comes a total equal to the product count. */
  lemma DocumentoConProductos(e: DatosEmpresa, ps: seq<DatosProducto>, fecha: string)
    requires ps != []
    ensures var d := Documento(e, ps, fecha);
            && |d| == 11 && d[..8] == Cabecera(e, fecha)
            && d[8].Tabla? && |d[8].filas| == |ps| + 1 && d[8].filas[0] == Encabezado
            && (forall i | 0 <= i < |ps| :: d[8].filas[i + 1] == FilaDe(ps[i]))
            && (forall k | 0 <= k < |d| && k != 8 :: !d[k].Tabla?)
            && d[10] == Parrafo(Total(|ps|)) && Valor(Decimal(|ps|)) == |ps|
  {
    var c := Cabecera(e, fecha);
    var t := Tabla([Encabezado] + Filas(ps));
    var d := c + [t, Espacio(0.2), Parrafo(Total(|ps|))];
    assert Documento(e, ps, fecha) == d;
    CabeceraSinTablas(e, fecha);
    forall k | 0 <= k < |d| && k != 8 ensures !d[k].Tabla? {
      if k < 8 {
        assert d[k] == c[k];
      }
    }
    assert d[..8] == c;
  }

  /** The header holds paragraphs and spaces only. */
  lemma CabeceraSinTablas(e: DatosEmpresa, fecha: string)
    ensures forall k | 0 <= k < 8 :: !Cabecera(e, fecha)[k].Tabla?
  {}

  /** Without products, the document has no table: the header and then the placeholder. */
  lemma DocumentoSinProductos(e: DatosEmpresa, fecha: string)
    ensures var d := Documento(e, [], fecha);
            && |d| == 9 && d[..8] == Cabecera(e, fecha) && d[8] == Parrafo(SinProductos)
            && forall k | 0 <= k < |d| :: !d[k].Tabla?
  {}

  /** `_generar_pdf_inventario`: the header elements, then, when there are products, the
      loop that appends one row per product to `data` (each with its price text loop) and the
      table with the total; otherwise the placeholder. */
  method GenerarDocumento(e: Empresa, productos: seq<Producto>, fecha: string)
    returns (elementos: seq<Elemento>)
    ensures elementos == Documento(DatosDeEmpresa(e), DatosDeTodos(productos), fecha)
  {
    elementos := Cabecera(DatosDeEmpresa(e), fecha);
    if productos == [] {
      elementos := elementos + [Parrafo(SinProductos)];
      return;
    }
    var data := [Encabezado];
    for k := 0 to |productos|
      invariant |data| == k + 1 && data[0] == Encabezado
      invariant forall i | 0 <= i < k :: data[i + 1] == FilaDe(DatosDe(productos[i]))
    {
      var p := productos[k];
      var precios := TextoPrecios(p.precios);
      var caracteristicas := CeldaCaracteristicas(p.caracteristicas);
      data := data + [[p.codigo, p.nombre, caracteristicas, precios]];
    }
    var ds := DatosDeTodos(productos);
    assert data == [Encabezado] + Filas(ds);
    elementos := elementos + [Tabla(data), Espacio(0.2), Parrafo(Total(|productos|))];
  }

  /** The instant `datetime.now()` returns, with a four-digit year. */
  datatype Instante = Instante(anio: nat, mes: nat, dia: nat, hora: nat, minuto: nat, segundo: nat)

  predicate InstanteValido(t: Instante) {
    1000 <= t.anio <= 9999 && 1 <= t.mes <= 12 && 1 <= t.dia <= 31
    && t.hora < 24 && t.minuto < 60 && t.segundo < 60
  }

  /** Four digits, zero padded. */
  function CuatroDigitos(n: nat): (r: string)
    requires n < 10000
    ensures |r| == 4 && SoloDigitos(r) && Valor(r) == n
  {
    var a, b := DosDigitos(n / 100), DosDigitos(n % 100);
    ValorConcatenado(a, b);
    assert Potencia10(2) == 100;
    a + b
  }

  /** `strftime('%Y%m%d_%H%M%S')`. */
  function Sello(t: Instante): (r: string)
    requires InstanteValido(t)
    ensures |r| == 15 && r[8] == '_'
    ensures r[..4] == CuatroDigitos(t.anio) && r[4..6] == DosDigitos(t.mes) && r[6..8] == DosDigitos(t.dia)
    ensures r[9..11] == DosDigitos(t.hora) && r[11..13] == DosDigitos(t.minuto) && r[13..] == DosDigitos(t.segundo)
  {
    var fecha := CuatroDigitos(t.anio) + DosDigitos(t.mes) + DosDigitos(t.dia);
    var hora := DosDigitos(t.hora) + DosDigitos(t.minuto) + DosDigitos(t.segundo);
    assert fecha[..4] == CuatroDigitos(t.anio) && fecha[4..6] == DosDigitos(t.mes) && fecha[6..] == DosDigitos(t.dia);
    assert hora[..2] == DosDigitos(t.hora) && hora[2..4] == DosDigitos(t.minuto) && hora[4..] == DosDigitos(t.segundo);
    var r := fecha + "_" + hora;
    assert r[..8] == fecha && r[9..] == hora;
    r
  }

  /** `strftime('%d/%m/%Y %H:%M:%S')`. */
  function FechaLegible(t: Instante): (r: string)
    requires InstanteValido(t)
    ensures |r| == 19
  {
    DosDigitos(t.dia) + "/" + DosDigitos(t.mes) + "/" + CuatroDigitos(t.anio) + " "
    + DosDigitos(t.hora) + ":" + DosDigitos(t.minuto) + ":" + DosDigitos(t.segundo)
  }

  /** Different instants (to the second) give different stamps, so the stamp can be read
      back into the instant. */
  lemma SelloInyectivo(t: Instante, u: Instante)
    requires InstanteValido(t) && InstanteValido(u) && Sello(t) == Sello(u)
    ensures t == u
  {
    var s := Sello(t);
    assert Valor(s[..4]) == t.anio == u.anio;
    assert Valor(s[4..6]) == t.mes == u.mes;
    assert Valor(s[6..8]) == t.dia == u.dia;
    assert Valor(s[9..11]) == t.hora == u.hora;
    assert Valor(s[11..13]) == t.minuto == u.minuto;
    assert Valor(s[13..]) == t.segundo == u.segundo;
  }

  /** `f'inventario_{nit}_{fecha_generacion}.pdf'`. */
  function NombreArchivo(nit: string, sello: string): string {
    "inventario_" + nit + "_" + sello + ".pdf"
  }

  /** The file name gives back its nit and its stamp: two equal names with stamps of the same
      length (every `Sello` has 15 characters) come from the same nit and stamp. */
  lemma NombreArchivoInyectivo(n1: string, s1: string, n2: string, s2: string)
    requires |s1| == |s2| && NombreArchivo(n1, s1) == NombreArchivo(n2, s2)
    ensures n1 == n2 && s1 == s2
  {
    var a, b := NombreArchivo(n1, s1), NombreArchivo(n2, s2);
    assert |n1| == |n2|;
    assert a[11..11 + |n1|] == n1 && b[11..11 + |n2|] == n2;
    assert a[12 + |n1|..|a| - 4] == s1 && b[12 + |n2|..|b| - 4] == s2;
  }

  /** The answers of `generar_inventario_pdf`. */
  datatype Respuesta =
    /** 400: the e-mail address does not have the expected shape. */
    | CorreoInvalido
    /** 404: no company has that nit. */
    | EmpresaNoEncontrada(nit: string)
    /** 200: the PDF as an attachment named `archivo`. */
    | Descarga(archivo: string, documento: seq<Elemento>)
    /** 200: the acknowledgement that the PDF, attached as `adjunto`, is being sent to
        `destino`; the sending itself happens in the background. */
    | EnvioEnCurso(destino: string, empresaNit: string, empresaNombre: string, totalProductos: nat,
                   fecha: string, adjunto: string, documento: seq<Elemento>)

  function Estado(r: Respuesta): nat {
    match r
    case CorreoInvalido => 400
    case EmpresaNoEncontrada(_) => 404
    case _ => 200
  }

  /** `request.query_params.get('email', '').strip()`. */
  function Destino(email: Option<string>): string {
    Strip(if email.Some? then email.value else "")
  }

  /** The printed fields `d` are those of a stored product of company `nit`, prices
      included (in whichever order the storage returned them). */
  ghost predicate DatosLeidos(d: DatosProducto, productos: map<string, FilaProducto>,
                              precios: map<string, map<Moneda, real>>, nit: string)
  {
    && d.codigo in productos && d.codigo in precios
    && productos[d.codigo] == FilaProducto(d.nombre, d.caracteristicas, nit)
    && Refleja(d.precios, precios[d.codigo])
  }

  /** The codes of a list of printed products. */
  function CodigosDatos(ds: seq<DatosProducto>): set<string> {
    if ds == [] then {} else CodigosDatos(ds[..|ds| - 1]) + {ds[|ds| - 1].codigo}
  }

  lemma {:induction false} CodigosDeLosDatos(ps: seq<Producto>)
    ensures CodigosDatos(DatosDeTodos(ps)) == Codigos(ps)
    decreases |ps|
  {
    if ps != [] {
      CodigosDeLosDatos(ps[..|ps| - 1]);
      assert DatosDeTodos(ps)[..|ps| - 1] == DatosDeTodos(ps[..|ps| - 1]);
    }
  }

  /** The codes of the products of company `nit`. */
  function CodigosEmpresa(productos: map<string, FilaProducto>, nit: string): set<string> {
    set c | c in productos && productos[c].empresaId == nit
  }

  /** `doc` is the report of company `nit` built from the printed fields `ds`: its header
      prints the stored company, and `ds` holds every product of the company once, each as
      stored. */
  ghost predicate InformeCon(doc: seq<Elemento>, empresas: map<string, FilaEmpresa>,
                             productos: map<string, FilaProducto>,
                             precios: map<string, map<Moneda, real>>, nit: string, fecha: string,
                             ds: seq<DatosProducto>)
    requires nit in empresas
  {
    var f := empresas[nit];
    doc == Documento(DatosEmpresa(nit, f.nombre, f.direccion, f.telefono), ds, fecha)
    && ListadoCompleto(ds, productos, precios, nit)
  }

  /** `ds` holds every product of company `nit` once, each as stored. */
  ghost predicate ListadoCompleto(ds: seq<DatosProducto>, productos: map<string, FilaProducto>,
                                  precios: map<string, map<Moneda, real>>, nit: string)
  {
    && CodigosDatos(ds) == CodigosEmpresa(productos, nit) && |ds| == |CodigosEmpresa(productos, nit)|
    && (forall i | 0 <= i < |ds| :: DatosLeidos(ds[i], productos, precios, nit))
  }

  /** `doc` is the report of company `nit`, for some listing of its products. */
  ghost predicate InformeDe(doc: seq<Elemento>, empresas: map<string, FilaEmpresa>,
                            productos: map<string, FilaProducto>,
                            precios: map<string, map<Moneda, real>>, nit: string, fecha: string)
    requires nit in empresas
  {
    exists ds: seq<DatosProducto> :: InformeCon(doc, empresas, productos, precios, nit, fecha, ds)
  }

  /** What `generar_inventario_pdf` answers over the tables, for the stripped address
      `destino`: 400 for a non-empty address of the wrong shape, before anything else; 404 for
      an unknown company; otherwise the report of the company, as a download named
      `inventario_<nit>_<stamp>.pdf` when no address was given, or as the acknowledgement of
      the e-mail carrying it, with the company, the product count and the printed date. */
  ghost predicate RespuestaCorrecta(r: Respuesta, empresas: map<string, FilaEmpresa>,
                                    productos: map<string, FilaProducto>,
                                    precios: map<string, map<Moneda, real>>, nit: string,
                                    destino: string, ahora: Instante, despues: Instante)
    requires InstanteValido(ahora) && InstanteValido(despues)
  {
    if destino != "" && !ValidarEmail(destino) then r == CorreoInvalido
    else if nit !in empresas then r == EmpresaNoEncontrada(nit)
    else
      var archivo, fecha := NombreArchivo(nit, Sello(ahora)), FechaLegible(despues);
      && (destino == "" ==> r.Descarga? && r.archivo == archivo)
      && (destino != "" ==>
            && r.EnvioEnCurso? && r.destino == destino && r.empresaNit == nit
            && r.empresaNombre == empresas[nit].nombre
            && r.totalProductos == |CodigosEmpresa(productos, nit)|
            && r.fecha == fecha && r.adjunto == archivo)
      && InformeDe(r.documento, empresas, productos, precios, nit, fecha)
  }

  /** A company stored in a valid store has a non-empty nit, so the view's listing of its
      products always filters by company. */
  lemma NitRegistradoNoVacio(db: BaseDeDatos, nit: string)
    requires db.Valid() && nit in db.empresas
    ensures nit != ""
    ensures CasosProducto.Listados(db.productos, Some(nit)) == CodigosEmpresa(db.productos, nit)
  {
    assert EmpresaValida(nit, db.empresas[nit]);
  }

  /** The document built from the company's stored fields and from the printed fields of
      the products listed for it is the report of that company. */
  lemma InformeDeLoListado(empresas: map<string, FilaEmpresa>, productos: map<string, FilaProducto>,
                           precios: map<string, map<Moneda, real>>, nit: string,
                           ds: seq<DatosProducto>, fecha: string)
    requires nit in empresas && ListadoCompleto(ds, productos, precios, nit)
    ensures var f := empresas[nit];
            InformeDe(Documento(DatosEmpresa(nit, f.nombre, f.direccion, f.telefono), ds, fecha),
                      empresas, productos, precios, nit, fecha)
  {
    var f := empresas[nit];
    var doc := Documento(DatosEmpresa(nit, f.nombre, f.direccion, f.telefono), ds, fecha);
    assert InformeCon(doc, empresas, productos, precios, nit, fecha, ds);
  }

  /** Every product of a listing read from `db` for company `nit` prints as stored. */
  lemma TodosSeImprimen(ps: seq<Producto>, db: BaseDeDatos, nit: string)
    requires forall i | 0 <= i < |ps| :: Leido(ps[i], db) && ps[i].empresaNit == nit
    ensures forall i | 0 <= i < |ps| :: DatosLeidos(DatosDeTodos(ps)[i], db.productos, db.precios, nit)
  {
    forall i | 0 <= i < |ps| ensures DatosLeidos(DatosDeTodos(ps)[i], db.productos, db.precios, nit) {
      LeidoSeImprime(ps[i], db, nit);
    }
  }

  /** A product read from `db` for company `nit` prints as stored. */
  lemma LeidoSeImprime(p: Producto, db: BaseDeDatos, nit: string)
    requires Leido(p, db) && p.empresaNit == nit
    ensures DatosLeidos(DatosDe(p), db.productos, db.precios, nit)
  {}

  /** `generar_inventario_pdf`: strip the address, check it when there is one, look the
      company up, list its products, build the document and answer with it. `ahora` and
      `despues` are the two `datetime.now()` calls, for the file-name stamp and for the
      printed date. */
  method GenerarInventarioPdf(empresas: RepositorioEmpresas.DjangoEmpresaRepository,
                              productos: DjangoProductoRepository, nit: string, email: Option<string>,
                              ahora: Instante, despues: Instante) returns (r: Respuesta)
    requires empresas.db == productos.db && productos.db.Valid()
    requires InstanteValido(ahora) && InstanteValido(despues)
    ensures RespuestaCorrecta(r, productos.db.empresas, productos.db.productos, productos.db.precios,
                              nit, Destino(email), ahora, despues)
  {
    var destino := Destino(email);
    var enviarPorCorreo := destino != "";
    if enviarPorCorreo && !ValidarEmail(destino) {
      return CorreoInvalido;
    }
    var empresa := CasosEmpresa.Obtener(empresas, nit);
    if empresa.None? {
      return EmpresaNoEncontrada(nit);
    }
    var e := empresa.value;
    var fechaGeneracion, fechaFormateada := Sello(ahora), FechaLegible(despues);
    var doc, total := Informe(productos, e, fechaFormateada);
    if enviarPorCorreo {
      r := EnvioEnCurso(destino, nit, e.nombre, total, fechaFormateada,
                        NombreArchivo(nit, fechaGeneracion), doc);
    } else {
      r := Descarga(NombreArchivo(e.nit, fechaGeneracion), doc);
    }
  }

  /** The middle of `generar_inventario_pdf` once the company `e` is found: its products are
      listed and the document is built; `total` is `len(productos)`. */
  method Informe(productos: DjangoProductoRepository, e: Empresa, fecha: string)
    returns (doc: seq<Elemento>, total: nat)
    requires productos.db.Valid() && RepositorioEmpresas.Leida(e, productos.db)
    ensures e.nit in productos.db.empresas && total == |CodigosEmpresa(productos.db.productos, e.nit)|
    ensures InformeDe(doc, productos.db.empresas, productos.db.productos, productos.db.precios, e.nit, fecha)
  {
    var nit := e.nit;
    NitRegistradoNoVacio(productos.db, nit);
    var ps := CasosProducto.Listar(productos, Some(nit));
    doc := GenerarDocumento(e, ps, fecha);
    CodigosDeLosDatos(ps);
    TodosSeImprimen(ps, productos.db, nit);
    InformeDeLoListado(productos.db.empresas, productos.db.productos, productos.db.precios, nit,
                       DatosDeTodos(ps), fecha);
    total := |ps|;
  }

  /** The status codes: 400, 404, and 200 for both kinds of success. */
  lemma EstadosDeLaVista(r: Respuesta, empresas: map<string, FilaEmpresa>,
                         productos: map<string, FilaProducto>, precios: map<string, map<Moneda, real>>,
                         nit: string, destino: string, ahora: Instante, despues: Instante)
    requires InstanteValido(ahora) && InstanteValido(despues)
    requires RespuestaCorrecta(r, empresas, productos, precios, nit, destino, ahora, despues)
    ensures Estado(r) == 400 <==> destino != "" && !ValidarEmail(destino)
    ensures Estado(r) == 404 <==> (destino == "" || ValidarEmail(destino)) && nit !in empresas
    ensures Estado(r) == 200 <==> (destino == "" || ValidarEmail(destino)) && nit in empresas
  {}
}
