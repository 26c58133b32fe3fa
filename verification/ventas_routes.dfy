/**
  The property-sale routes: the validation chain of `POST /api/ventas` and the four
  queries `/suma`, `/promedios`, `/mes-mayor` and `/menor-por-tipo`. A store query
  `where(campo, "==", valor)` becomes a filter of the collection, which is passed in as
  the sequence of stored sales in the order the store returns them.
 */
module VentasRoutes {
  import opened JsValues
  import opened VentasRecords

  // ---------------------------------------------------------------------------
  // POST /api/ventas

  /** The request body; a numeric field is `None` when absent and otherwise holds the
      JSON number that was sent. */
  datatype VentaBody = VentaBody(tipo: Json, anio: Option<real>, mes: Option<real>, precio: Option<real>)

  /** The 400 responses of `POST`, in the order the checks run. */
  datatype VentaError = CamposObligatorios | TipoInvalido | AnioInvalido | MesInvalido | PrecioInvalido

  /** `!x` for a numeric field: absent or 0. */
  predicate NumeroFalsy(n: Option<real>) {
    n.None? || n.value == 0.0
  }

  predicate FaltanCampos(b: VentaBody) {
    Falsy(b.tipo) || NumeroFalsy(b.anio) || NumeroFalsy(b.mes) || NumeroFalsy(b.precio)
  }

  predicate TipoValido(tipo: Json) {
    tipo == Str("Casa") || tipo == Str("Apartamento")
  }

  /** `POST /api/ventas`: the first failing check decides the error; on success the sale
      is stored exactly as sent. */
  function CrearVenta(b: VentaBody): (r: Result<Venta, VentaError>)
    ensures r == Err(CamposObligatorios) <==> FaltanCampos(b)
    ensures r == Err(TipoInvalido) <==> !FaltanCampos(b) && !TipoValido(b.tipo)
    ensures r == Err(AnioInvalido) <==>
              !FaltanCampos(b) && TipoValido(b.tipo) && !(2000.0 <= b.anio.value <= 2100.0)
    ensures r == Err(MesInvalido) <==>
              !FaltanCampos(b) && TipoValido(b.tipo) && 2000.0 <= b.anio.value <= 2100.0 &&
              !(1.0 <= b.mes.value <= 12.0)
    ensures r == Err(PrecioInvalido) <==>
              !FaltanCampos(b) && TipoValido(b.tipo) && 2000.0 <= b.anio.value <= 2100.0 &&
              1.0 <= b.mes.value <= 12.0 && b.precio.value <= 0.0
    ensures r.Ok? ==> VentaRegistrada(r.value)
    ensures r.Ok? ==> r.value == Venta(b.tipo, Finite(b.anio.value), Finite(b.mes.value), b.precio)
  {
    if FaltanCampos(b) then Err(CamposObligatorios)
    else if b.tipo != Str("Casa") && b.tipo != Str("Apartamento") then Err(TipoInvalido)
    else if b.anio.value < 2000.0 || b.anio.value > 2100.0 then Err(AnioInvalido)
    else if b.mes.value < 1.0 || b.mes.value > 12.0 then Err(MesInvalido)
    else if b.precio.value <= 0.0 then Err(PrecioInvalido)
    else Ok(Venta(b.tipo, Finite(b.anio.value), Finite(b.mes.value), b.precio))
  }

  /** A price, month or year of 0 is reported as a missing field, never as out of range. */
  lemma CeroEsCampoFaltante(b: VentaBody)
    requires b.precio == Some(0.0) || b.mes == Some(0.0) || b.anio == Some(0.0)
    ensures CrearVenta(b) == Err(CamposObligatorios)
  {
  }

  // ---------------------------------------------------------------------------
  // Query errors

  /** The 400 responses of the queries. */
  datatype ConsultaError = MesNoValido | AnioNoValido | TipoRequerido

  // ---------------------------------------------------------------------------
  // GET /api/ventas/suma?mes=

  datatype SumaRespuesta = SumaRespuesta(mes: int, totalVentas: real)

  /** `/suma`: `mes` is the result of `parseInt` on the query (`None` for NaN). */
  method Suma(ventas: seq<Venta>, mes: Option<int>) returns (r: Result<SumaRespuesta, ConsultaError>)
    ensures r.Err? <==> mes.None? || !(1 <= mes.value <= 12)
    ensures r.Err? ==> r.error == MesNoValido
    ensures r.Ok? ==> r.value == SumaRespuesta(mes.value, TotalDelMes(ventas, Finite(mes.value as real)))
  {
    if mes.None? || mes.value == 0 || mes.value < 1 || mes.value > 12 {
      return Err(MesNoValido);
    }
    var m := mes.value;
    var snapshot := DelMes(ventas, Finite(m as real));
    var suma := 0.0;
    for i := 0 to |snapshot|
      invariant suma == TotalPrecios(snapshot[..i])
    {
      assert snapshot[..i + 1][..i] == snapshot[..i];
      suma := suma + PrecioONulo(snapshot[i]);
    }
    assert snapshot[..|snapshot|] == snapshot;
    r := Ok(SumaRespuesta(m, suma));
  }

  /** Storing a sale and then asking for its month gives at least its price, when no
      stored price is negative (which `POST` guarantees). The store lists documents by
      their generated id, so the new sale may come back at any position `k`. */
  lemma SumaTrasRegistrar(ventas: seq<Venta>, k: nat, b: VentaBody)
    requires k <= |ventas|
    requires forall i :: 0 <= i < |ventas| ==> PrecioONulo(ventas[i]) >= 0.0
    requires CrearVenta(b).Ok?
    ensures var v := CrearVenta(b).value;
            TotalDelMes(ventas[..k] + [v] + ventas[k..], v.mes) >= v.precio.value
  {
    var v := CrearVenta(b).value;
    var ds := DelMes(ventas, v.mes);
    FilterMiembros(ventas, EsDelMes(v.mes));
    forall i | 0 <= i < |ds| ensures PrecioONulo(ds[i]) >= 0.0 {
      assert ds[i] in ventas;
    }
    TotalPreciosNoNegativo(ds);
    TotalDelMesAlInsertar(ventas, k, v, v.mes);
  }

  // ---------------------------------------------------------------------------
  // GET /api/ventas/promedios

  datatype PromediosRespuesta = PromediosRespuesta(promedioCasas: real, promedioApartamentos: real)

  /** `/promedios`: one pass with a sum and a count for each of the two types. */
  method Promedios(ventas: seq<Venta>) returns (r: PromediosRespuesta)
    ensures r == PromediosRespuesta(Promedio(ventas, "Casa"), Promedio(ventas, "Apartamento"))
  {
    var sumaCasas, countCasas := 0.0, 0;
    var sumaAptos, countAptos := 0.0, 0;
    for i := 0 to |ventas|
      invariant sumaCasas == TotalPrecios(DelTipo(ventas[..i], "Casa"))
      invariant countCasas == |DelTipo(ventas[..i], "Casa")|
      invariant sumaAptos == TotalPrecios(DelTipo(ventas[..i], "Apartamento"))
      invariant countAptos == |DelTipo(ventas[..i], "Apartamento")|
    {
      var data := ventas[i];
      assert ventas[..i + 1] == ventas[..i] + [data];
      DelTipoAlAgregar(ventas[..i], data, "Casa");
      DelTipoAlAgregar(ventas[..i], data, "Apartamento");
      if data.tipo == Str("Casa") {
        sumaCasas := sumaCasas + PrecioONulo(data);
        countCasas := countCasas + 1;
      } else if data.tipo == Str("Apartamento") {
        sumaAptos := sumaAptos + PrecioONulo(data);
        countAptos := countAptos + 1;
      }
    }
    assert ventas[..|ventas|] == ventas;
    var promedioCasas := if countCasas > 0 then sumaCasas / countCasas as real else 0.0;
    var promedioAptos := if countAptos > 0 then sumaAptos / countAptos as real else 0.0;
    r := PromediosRespuesta(promedioCasas, promedioAptos);
  }

  // ---------------------------------------------------------------------------
  // GET /api/ventas/mes-mayor?año=

  /** An array-index key: a JavaScript object lists these first, in ascending numeric
      order, and every other key afterwards in the order it was created. */
  predicate EsIndice(k: Num) {
    k.Finite? && k.x.Floor as real == k.x && 0.0 <= k.x < 4294967295.0
  }

  /** A key order as a JavaScript object keeps it: no key twice, and the index keys
      first and ascending. */
  predicate OrdenJs(o: seq<Num>) {
    && (forall i, j :: 0 <= i < j < |o| ==> o[i] != o[j])
    && (forall i, j :: 0 <= i < j < |o| && EsIndice(o[j]) ==> EsIndice(o[i]) && o[i].x < o[j].x)
  }

  /** Places a new index key among the index keys, by value. */
  function InsertarIndice(o: seq<Num>, k: Num): (r: seq<Num>)
    requires EsIndice(k)
    ensures |r| == |o| + 1
    ensures forall x :: x in r <==> x in o || x == k
  {
    if o == [] || !EsIndice(o[0]) || k.x < o[0].x then [k] + o
    else [o[0]] + InsertarIndice(o[1..], k)
  }

  lemma {:induction false} InsertarIndiceOrdenado(o: seq<Num>, k: Num)
    requires OrdenJs(o) && EsIndice(k) && k !in o
    ensures OrdenJs(InsertarIndice(o, k))
  {
    if o == [] || !EsIndice(o[0]) || k.x < o[0].x {
      var r := [k] + o;
      assert r == InsertarIndice(o, k);
      forall i, j | 0 <= i < j < |r| && EsIndice(r[j])
        ensures EsIndice(r[i]) && r[i].x < r[j].x
      {
        if i == 0 {
          assert o[j - 1] == r[j];
          assert EsIndice(o[0]) && o[0].x <= o[j - 1].x;
        }
      }
    } else {
      var rest := InsertarIndice(o[1..], k);
      InsertarIndiceOrdenado(o[1..], k);
      var r := [o[0]] + rest;
      assert r == InsertarIndice(o, k);
      assert o[0].x < k.x;
      forall j | 0 < j < |r|
        ensures r[j] != o[0] && (EsIndice(r[j]) ==> o[0].x < r[j].x)
      {
        assert r[j] in rest;
        if r[j] != k {
          var p :| 0 <= p < |o[1..]| && o[1..][p] == r[j];
          assert o[p + 1] == r[j];
        }
      }
    }
  }

  /** Inserting an index key splits the old order at one point. */
  lemma {:induction false} InsertarIndiceDivide(o: seq<Num>, k: Num) returns (m: nat)
    requires EsIndice(k)
    ensures m <= |o| && InsertarIndice(o, k) == o[..m] + [k] + o[m..]
  {
    if o == [] || !EsIndice(o[0]) || k.x < o[0].x {
      m := 0;
    } else {
      var m' := InsertarIndiceDivide(o[1..], k);
      m := m' + 1;
      assert o[..m] == [o[0]] + o[1..][..m'];
      assert o[m..] == o[1..][m'..];
    }
  }

  /** The key order after `ventasPorMes[k] = ...`. */
  function InsertarClave(o: seq<Num>, k: Num): seq<Num> {
    if k in o then o else if EsIndice(k) then InsertarIndice(o, k) else o + [k]
  }

  /** The own-key order of `ventasPorMes` after the sales `s` were added. */
  function OrdenClaves(s: seq<Venta>): seq<Num> {
    if s == [] then [] else InsertarClave(OrdenClaves(s[..|s| - 1]), s[|s| - 1].mes)
  }

  /** `ventasPorMes` after the sales `s`: per month, the sum of the prices read as 0 when
      missing. Months are object keys, so all NaN months share one entry. */
  function TotalesPorMes(s: seq<Venta>): map<Num, real> {
    if s == [] then map[]
    else
      var m := TotalesPorMes(s[..|s| - 1]);
      var v := s[|s| - 1];
      m[v.mes := (if v.mes in m then m[v.mes] else 0.0) + PrecioONulo(v)]
  }

  /** The keys of `ventasPorMes` are the months of the sales, listed once each in
      JavaScript's order. */
  lemma {:induction false} OrdenClavesCorrecto(s: seq<Venta>)
    ensures OrdenJs(OrdenClaves(s))
    ensures forall k :: k in OrdenClaves(s) <==> k in TotalesPorMes(s)
  {
    if s != [] {
      var o := OrdenClaves(s[..|s| - 1]);
      var k := s[|s| - 1].mes;
      OrdenClavesCorrecto(s[..|s| - 1]);
      if k !in o {
        if EsIndice(k) {
          InsertarIndiceOrdenado(o, k);
        } else {
          var r := o + [k];
          forall i, j | 0 <= i < j < |r| && EsIndice(r[j])
            ensures EsIndice(r[i]) && r[i].x < r[j].x
          {
            assert j < |o|;
          }
        }
      }
    }
  }

  /** The position of the first sale of month `k`, or `|s|` when there is none: the
      moment `ventasPorMes[k]` is created. */
  function PrimeraPosicion(s: seq<Venta>, k: Num): (r: nat)
    ensures r <= |s|
    ensures r < |s| ==> s[r].mes == k
    ensures forall q :: 0 <= q < r ==> s[q].mes != k
  {
    if s == [] then 0
    else
      var n := |s| - 1;
      var p := PrimeraPosicion(s[..n], k);
      if p < n then p else if s[n].mes == k then n else |s|
  }

  /** Key `a` of `ventasPorMes` comes before key `b` in JavaScript's own-key order: index
      keys first, ascending, then the other keys in the order they were created. */
  predicate AntesEnObjeto(s: seq<Venta>, a: Num, b: Num) {
    if EsIndice(a) then !EsIndice(b) || a.x < b.x
    else !EsIndice(b) && PrimeraPosicion(s, a) < PrimeraPosicion(s, b)
  }

  /** One more sale leaves the first position of every month that already occurred, and
      gives its own month, if new, the last position. */
  lemma PrimeraPosicionSnoc(s: seq<Venta>, x: Num)
    requires s != []
    ensures var n := |s| - 1;
            && (PrimeraPosicion(s[..n], x) < n ==> PrimeraPosicion(s, x) == PrimeraPosicion(s[..n], x))
            && (PrimeraPosicion(s[..n], x) == n ==>
                  PrimeraPosicion(s, x) == (if s[n].mes == x then n else |s|))
  {
  }

  /** The keys of `ventasPorMes` are exactly the months that occur. */
  lemma {:induction false} OrdenClavesMeses(s: seq<Venta>)
    ensures forall k :: k in OrdenClaves(s) <==> PrimeraPosicion(s, k) < |s|
  {
    if s != [] {
      var n := |s| - 1;
      OrdenClavesMeses(s[..n]);
      forall x ensures x in OrdenClaves(s) <==> PrimeraPosicion(s, x) < |s| {
        PrimeraPosicionSnoc(s, x);
      }
    }
  }

  /** Every key of `OrdenClaves(s)` is listed before every key JavaScript lists after it. */
  predicate ClavesEnOrdenJs(s: seq<Venta>) {
    var o := OrdenClaves(s);
    forall i, j :: 0 <= i < j < |o| ==> AntesEnObjeto(s, o[i], o[j])
  }

  /** `OrdenClaves` is JavaScript's key order. */
  lemma {:induction false} OrdenClavesSigueJs(s: seq<Venta>)
    ensures ClavesEnOrdenJs(s)
  {
    if s != [] {
      var n := |s| - 1;
      OrdenClavesSigueJs(s[..n]);
      var o' := OrdenClaves(s[..n]);
      if s[n].mes in o' {
        SigueJsMesConocido(s);
      } else if EsIndice(s[n].mes) {
        SigueJsIndiceNuevo(s);
      } else {
        SigueJsClaveNueva(s);
      }
    }
  }

  /** A sale of a month that already has a key keeps the order. */
  lemma SigueJsMesConocido(s: seq<Venta>)
    requires s != [] && ClavesEnOrdenJs(s[..|s| - 1])
    requires s[|s| - 1].mes in OrdenClaves(s[..|s| - 1])
    ensures ClavesEnOrdenJs(s)
  {
    var n := |s| - 1;
    var o := OrdenClaves(s);
    OrdenClavesMeses(s[..n]);
    assert o == OrdenClaves(s[..n]);
    forall i, j | 0 <= i < j < |o| ensures AntesEnObjeto(s, o[i], o[j]) {
      PrimeraPosicionSnoc(s, o[i]);
      PrimeraPosicionSnoc(s, o[j]);
    }
  }

  /** A new index key is placed among the index keys; the other keys keep their order. */
  lemma SigueJsIndiceNuevo(s: seq<Venta>)
    requires s != [] && ClavesEnOrdenJs(s[..|s| - 1])
    requires s[|s| - 1].mes !in OrdenClaves(s[..|s| - 1]) && EsIndice(s[|s| - 1].mes)
    ensures ClavesEnOrdenJs(s)
  {
    var n := |s| - 1;
    var k := s[n].mes;
    var o' := OrdenClaves(s[..n]);
    var o := OrdenClaves(s);
    OrdenClavesCorrecto(s);
    var m := InsertarIndiceDivide(o', k);
    forall i, j | 0 <= i < j < |o| ensures AntesEnObjeto(s, o[i], o[j]) {
      if !EsIndice(o[i]) {
        IndiceNuevoOtrasClaves(s, o', k, m, i, j);
      }
    }
  }

  /** Around a new index key inserted at `m`, two keys that are not indices keep their
      creation order. */
  lemma IndiceNuevoOtrasClaves(s: seq<Venta>, o': seq<Num>, k: Num, m: nat, i: nat, j: nat)
    requires s != [] && o' == OrdenClaves(s[..|s| - 1]) && ClavesEnOrdenJs(s[..|s| - 1])
    requires EsIndice(k) && m <= |o'| && OrdenClaves(s) == o'[..m] + [k] + o'[m..]
    requires OrdenJs(OrdenClaves(s))
    requires i < j < |OrdenClaves(s)| && !EsIndice(OrdenClaves(s)[i])
    ensures AntesEnObjeto(s, OrdenClaves(s)[i], OrdenClaves(s)[j])
  {
    var o := OrdenClaves(s);
    assert o[j] != k && o[i] != k;
    var i' := if i < m then i else i - 1;
    var j' := if j < m then j else j - 1;
    assert o[i] == o'[i'] && o[j] == o'[j'] && i' < j';
    AntesSeConserva(s, o[i], o[j]);
  }

  /** Two keys that already exist keep their relative order when a sale is added. */
  lemma AntesSeConserva(s: seq<Venta>, a: Num, b: Num)
    requires s != []
    requires a in OrdenClaves(s[..|s| - 1]) && b in OrdenClaves(s[..|s| - 1])
    requires AntesEnObjeto(s[..|s| - 1], a, b)
    ensures AntesEnObjeto(s, a, b)
  {
    OrdenClavesMeses(s[..|s| - 1]);
    PrimeraPosicionSnoc(s, a);
    PrimeraPosicionSnoc(s, b);
  }

  /** A new key that is not an index goes last, and was created last. */
  lemma SigueJsClaveNueva(s: seq<Venta>)
    requires s != [] && ClavesEnOrdenJs(s[..|s| - 1])
    requires s[|s| - 1].mes !in OrdenClaves(s[..|s| - 1]) && !EsIndice(s[|s| - 1].mes)
    ensures ClavesEnOrdenJs(s)
  {
    var n := |s| - 1;
    var k := s[n].mes;
    var o' := OrdenClaves(s[..n]);
    var o := OrdenClaves(s);
    OrdenClavesMeses(s[..n]);
    assert o == o' + [k];
    forall i, j | 0 <= i < j < |o| ensures AntesEnObjeto(s, o[i], o[j]) {
      assert o[i] == o'[i];
      PrimeraPosicionSnoc(s, o[i]);
      PrimeraPosicionSnoc(s, o[j]);
      if j < |o'| {
        assert o[j] == o'[j];
      }
    }
  }

  /** A month's entry in `ventasPorMes` is that month's total, the value `/suma` computes
      for it; a finite month that no sale has gets no entry. */
  lemma {:induction false} TotalesPorMesSonSumas(s: seq<Venta>, k: Num)
    requires k.Finite?
    ensures k in TotalesPorMes(s) ==> TotalesPorMes(s)[k] == TotalDelMes(s, k)
    ensures k !in TotalesPorMes(s) ==> TotalDelMes(s, k) == 0.0
  {
    if s == [] {
    } else {
      var s' := s[..|s| - 1];
      var v := s[|s| - 1];
      assert s == s' + [v];
      TotalesPorMesSonSumas(s', k);
      TotalDelMesAlAgregar(s', v, k);
    }
  }

  /** The running maximum over the entries of `ventasPorMes`, starting from 0 and
      replaced only by a strictly greater total: the position of the first entry with
      the greatest total, or `None` when no total exceeds 0. */
  function IndiceMesMayor(orden: seq<Num>, totales: map<Num, real>): (r: Option<nat>)
    requires forall i :: 0 <= i < |orden| ==> orden[i] in totales
    ensures r.None? ==> forall i :: 0 <= i < |orden| ==> totales[orden[i]] <= 0.0
    ensures r.Some? ==> r.value < |orden| && totales[orden[r.value]] > 0.0
    ensures r.Some? ==> forall i :: 0 <= i < |orden| ==> totales[orden[i]] <= totales[orden[r.value]]
    ensures r.Some? ==> forall i :: 0 <= i < r.value ==> totales[orden[i]] < totales[orden[r.value]]
  {
    if orden == [] then None
    else
      var n := |orden| - 1;
      var p := IndiceMesMayor(orden[..n], totales);
      var mejor := if p.None? then 0.0 else totales[orden[p.value]];
      if totales[orden[n]] > mejor then Some(n) else p
  }

  /** The JSON object `/mes-mayor` answers with; `mesMayor` is `None` for `null`. */
  datatype MesMayorRespuesta = MesMayorRespuesta(anio: int, mesMayor: Option<Num>, totalVentas: real)

  /** The answer for the sales `s` of year `anio`. */
  function MesMayorDe(anio: int, s: seq<Venta>): MesMayorRespuesta {
    OrdenClavesCorrecto(s);
    var orden := OrdenClaves(s);
    var totales := TotalesPorMes(s);
    match IndiceMesMayor(orden, totales)
    case None => MesMayorRespuesta(anio, None, 0.0)
    case Some(i) => MesMayorRespuesta(anio, Some(orden[i]), totales[orden[i]])
  }

  /** The `forEach` of `/mes-mayor`: builds `ventasPorMes`, whose own-key order is
      returned beside it in `claves`. */
  method AgruparPorMes(snapshot: seq<Venta>) returns (ventasPorMes: map<Num, real>, claves: seq<Num>)
    ensures ventasPorMes == TotalesPorMes(snapshot)
    ensures claves == OrdenClaves(snapshot)
  {
    ventasPorMes, claves := map[], [];
    for i := 0 to |snapshot|
      invariant ventasPorMes == TotalesPorMes(snapshot[..i])
      invariant claves == OrdenClaves(snapshot[..i])
    {
      assert snapshot[..i + 1][..i] == snapshot[..i];
      OrdenClavesCorrecto(snapshot[..i]);
      var mes := snapshot[i].mes;
      if mes !in ventasPorMes || ventasPorMes[mes] == 0.0 {
        claves := InsertarClave(claves, mes);
        ventasPorMes := ventasPorMes[mes := 0.0];
      }
      ventasPorMes := ventasPorMes[mes := ventasPorMes[mes] + PrecioONulo(snapshot[i])];
    }
    assert snapshot[..|snapshot|] == snapshot;
  }

  /** The `for (const [mes, total] of Object.entries(ventasPorMes))` loop of `/mes-mayor`. */
  method RecorrerEntradas(claves: seq<Num>, ventasPorMes: map<Num, real>)
    returns (mesMayor: Option<Num>, maxVenta: real)
    requires forall i :: 0 <= i < |claves| ==> claves[i] in ventasPorMes
    ensures var p := IndiceMesMayor(claves, ventasPorMes);
            && (p.None? ==> mesMayor.None? && maxVenta == 0.0)
            && (p.Some? ==> mesMayor == Some(claves[p.value]) && maxVenta == ventasPorMes[claves[p.value]])
  {
    mesMayor, maxVenta := None, 0.0;
    ghost var indice: Option<nat> := None;
    for j := 0 to |claves|
      invariant indice == IndiceMesMayor(claves[..j], ventasPorMes)
      invariant indice.None? ==> mesMayor.None? && maxVenta == 0.0
      invariant indice.Some? ==> indice.value < j && mesMayor == Some(claves[indice.value]) &&
                                 maxVenta == ventasPorMes[claves[indice.value]]
    {
      assert claves[..j + 1][..j] == claves[..j];
      var total := ventasPorMes[claves[j]];
      if total > maxVenta {
        maxVenta := total;
        mesMayor := Some(claves[j]);
        indice := Some(j);
      }
    }
    assert claves[..|claves|] == claves;
  }

  /** `/mes-mayor`: `anio` is the result of `parseInt` on the query (`None` for NaN). */
  method MesMayor(ventas: seq<Venta>, anio: Option<int>) returns (r: Result<MesMayorRespuesta, ConsultaError>)
    ensures r.Err? <==> anio.None? || anio.value == 0
    ensures r.Err? ==> r.error == AnioNoValido
    ensures r.Ok? ==> r.value == MesMayorDe(anio.value, DelAnio(ventas, Finite(anio.value as real)))
  {
    if anio.None? || anio.value == 0 {
      return Err(AnioNoValido);
    }
    var a := anio.value;
    var snapshot := DelAnio(ventas, Finite(a as real));
    var ventasPorMes, claves := AgruparPorMes(snapshot);
    OrdenClavesCorrecto(snapshot);
    var mesMayor, maxVenta := RecorrerEntradas(claves, ventasPorMes);
    r := Ok(MesMayorRespuesta(a, mesMayor, maxVenta));
  }

  /** What `/mes-mayor` promises about the total: `null` and 0 when no month total
      exceeds 0; otherwise a month whose total is the answer's `totalVentas`, which no
      month total exceeds. */
  lemma MesMayorEsMaximo(anio: int, s: seq<Venta>)
    ensures var r := MesMayorDe(anio, s);
            var totales := TotalesPorMes(s);
            && r.anio == anio
            && r.totalVentas >= 0.0
            && (forall k :: k in totales ==> totales[k] <= r.totalVentas)
            && (r.mesMayor.None? <==> forall k :: k in totales ==> totales[k] <= 0.0)
            && (r.mesMayor.None? ==> r.totalVentas == 0.0)
            && (r.mesMayor.Some? ==> r.mesMayor.value in totales && totales[r.mesMayor.value] == r.totalVentas)
  {
    OrdenClavesCorrecto(s);
    var orden := OrdenClaves(s);
    var totales := TotalesPorMes(s);
    forall k | k in totales ensures exists i :: 0 <= i < |orden| && orden[i] == k {
      assert k in orden;
    }
  }

  /** On a tie `/mes-mayor` keeps the month JavaScript lists first: every month listed
      before the answer has a strictly smaller total. */
  lemma MesMayorDesempate(anio: int, s: seq<Venta>)
    ensures var r := MesMayorDe(anio, s);
            var totales := TotalesPorMes(s);
            r.mesMayor.Some? ==>
              forall k :: k in totales && AntesEnObjeto(s, k, r.mesMayor.value) ==> totales[k] < r.totalVentas
  {
    OrdenClavesCorrecto(s);
    OrdenClavesSigueJs(s);
    OrdenClavesMeses(s);
    var orden := OrdenClaves(s);
    var totales := TotalesPorMes(s);
    var p := IndiceMesMayor(orden, totales);
    if p.Some? {
      var m := orden[p.value];
      forall k | k in totales && AntesEnObjeto(s, k, m) ensures totales[k] < totales[m] {
        assert k in orden;
        var i :| 0 <= i < |orden| && orden[i] == k;
        assert i < p.value;
      }
    }
  }

  // ---------------------------------------------------------------------------
  // GET /api/ventas/menor-por-tipo?tipo=

  /** The running minimum from `Infinity`, replaced only when `precio < menorVenta`: the
      position of the first sale with the least price, ignoring sales whose price is
      missing (such a comparison is false), or `None` when no sale has a price. */
  function IndiceMenor(s: seq<Venta>): (r: Option<nat>)
    ensures r.None? <==> forall i :: 0 <= i < |s| ==> s[i].precio.None?
    ensures r.Some? ==> r.value < |s| && s[r.value].precio.Some?
    ensures r.Some? ==> forall i :: 0 <= i < |s| && s[i].precio.Some? ==>
                          s[r.value].precio.value <= s[i].precio.value
    ensures r.Some? ==> forall i :: 0 <= i < r.value && s[i].precio.Some? ==>
                          s[r.value].precio.value < s[i].precio.value
  {
    if s == [] then None
    else
      var n := |s| - 1;
      var p := IndiceMenor(s[..n]);
      if s[n].precio.Some? && (p.None? || s[n].precio.value < s[p.value].precio.value) then Some(n)
      else p
  }

  /** The JSON object `/menor-por-tipo` answers with: `anio` and `mes` are `None` for
      `null`, and `menorVenta` is `None` for the initial `Infinity`. */
  datatype MenorRespuesta = MenorRespuesta(tipo: string, anio: Option<Num>, mes: Option<Num>, menorVenta: Option<real>)

  function MenorDe(tipo: string, s: seq<Venta>): MenorRespuesta {
    match IndiceMenor(s)
    case None => MenorRespuesta(tipo, None, None, None)
    case Some(i) => MenorRespuesta(tipo, Some(s[i].anio), Some(s[i].mes), s[i].precio)
  }

  /** `/menor-por-tipo`: `tipo` is the query value (`None` when absent). */
  method MenorPorTipo(ventas: seq<Venta>, tipo: Option<string>) returns (r: Result<MenorRespuesta, ConsultaError>)
    ensures r.Err? <==> tipo.None? || tipo.value == ""
    ensures r.Err? ==> r.error == TipoRequerido
    ensures r.Ok? ==> r.value == MenorDe(tipo.value, DelTipo(ventas, tipo.value))
  {
    if tipo.None? || tipo.value == "" {
      return Err(TipoRequerido);
    }
    var t := tipo.value;
    var snapshot := DelTipo(ventas, t);
    var menorVenta: Option<real> := None;
    var anioMenor: Option<Num> := None;
    var mesMenor: Option<Num> := None;
    ghost var indice: Option<nat> := None;
    for i := 0 to |snapshot|
      invariant indice == IndiceMenor(snapshot[..i])
      invariant indice.None? ==> menorVenta.None? && anioMenor.None? && mesMenor.None?
      invariant indice.Some? ==> indice.value < i && menorVenta == snapshot[indice.value].precio &&
                                 anioMenor == Some(snapshot[indice.value].anio) &&
                                 mesMenor == Some(snapshot[indice.value].mes)
    {
      assert snapshot[..i + 1][..i] == snapshot[..i];
      var precio := snapshot[i].precio;
      if precio.Some? && (menorVenta.None? || precio.value < menorVenta.value) {
        menorVenta := precio;
        anioMenor := Some(snapshot[i].anio);
        mesMenor := Some(snapshot[i].mes);
        indice := Some(i);
      }
    }
    assert snapshot[..|snapshot|] == snapshot;
    r := Ok(MenorRespuesta(t, anioMenor, mesMenor, menorVenta));
  }
}
