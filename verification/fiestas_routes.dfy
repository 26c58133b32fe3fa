/**
  The event-booking ("fiesta") routes: the two tiered rate lookups, the validation
  chain of `POST /api/fiestas` with the server-side total, and the `/resumen` fold
  over the stored bookings. The document store is replaced by a sequence of
  documents in the order the store hands them out.
 */
module FiestasRoutes {
  import opened JsValues

  /** Rate per guest. Both ends of each bracket are inclusive; a guest count below 1
      or strictly between 50 and 51 falls in no bracket and gets rate 0. */
  function TarifaPorInvitados(invitados: real): (r: int)
    ensures r == 0 || r == 15000 || r == 20000 || r == 25000
    ensures r == 0 <==> invitados < 1.0 || 50.0 < invitados < 51.0
  {
    if 1.0 <= invitados <= 50.0 then 25000
    else if 51.0 <= invitados <= 100.0 then 20000
    else if invitados > 100.0 then 15000
    else 0
  }

  /** Fee by duration. Hours below 1 or strictly between 3 and 4 fall in no bracket
      and get fee 0. */
  function CuotaPorHoras(horas: real): (r: int)
    ensures r == 0 || r == 50000 || r == 100000 || r == 200000
    ensures r == 0 <==> horas < 1.0 || 3.0 < horas < 4.0
  {
    if 1.0 <= horas <= 3.0 then 50000
    else if 4.0 <= horas <= 6.0 then 100000
    else if horas > 6.0 then 200000
    else 0
  }

  /** The rate per guest never grows with the number of guests, among priced counts. */
  lemma TarifaNoCrece(a: real, b: real)
    requires a <= b
    requires TarifaPorInvitados(a) > 0 && TarifaPorInvitados(b) > 0
    ensures TarifaPorInvitados(b) <= TarifaPorInvitados(a)
  {
  }

  /** The fee never shrinks with the duration, among priced durations. */
  lemma CuotaNoDecrece(a: real, b: real)
    requires a <= b
    requires CuotaPorHoras(a) > 0 && CuotaPorHoras(b) > 0
    ensures CuotaPorHoras(a) <= CuotaPorHoras(b)
  {
  }

  /** Whole numbers of guests and hours from 1 upwards always hit a bracket. */
  lemma EnterosSinHuecos(invitados: int, horas: int)
    requires invitados >= 1 && horas >= 1
    ensures TarifaPorInvitados(invitados as real) > 0
    ensures CuotaPorHoras(horas as real) > 0
  {
  }

  /** `invitadosNum * tarifa + cuotaHoras`. */
  function MontoTotal(invitados: real, horas: real): (r: real)
    ensures invitados >= 0.0 ==> r >= CuotaPorHoras(horas) as real >= 0.0
  {
    invitados * TarifaPorInvitados(invitados) as real + CuotaPorHoras(horas) as real
  }

  /** The worked example: 50 guests for 3 hours cost 1,300,000; one guest more costs
      less, because the whole party moves to the cheaper per-guest bracket. */
  lemma MontoEjemplos()
    ensures MontoTotal(50.0, 3.0) == 1300000.0
    ensures MontoTotal(51.0, 3.0) == 1070000.0 < MontoTotal(50.0, 3.0)
    ensures MontoTotal(101.0, 3.0) < MontoTotal(100.0, 3.0)
  {
  }

  /** The request body. `invitados` and `horas` are `None` when `undefined`, and otherwise
      hold the result of `Number(...)` on what was sent. A client may also send its own
      `montoTotal`, which the handler never reads. */
  datatype FiestaBody = FiestaBody(cedula: Json, invitados: Option<Num>, horas: Option<Num>, montoTotal: Option<Num>)

  /** The record that is stored and returned with status 201. */
  datatype Fiesta = Fiesta(cedula: string, invitados: real, horas: real, montoTotal: real)

  /** The 400 responses, in the order the checks run; each stands for its message. */
  datatype FiestaError = CamposObligatorios | CedulaInvalida | InvitadosInvalidos | HorasInvalidas

  /** First check: a falsy `cedula`, or `invitados` or `horas` left undefined. */
  predicate FaltanCampos(b: FiestaBody) {
    Falsy(b.cedula) || b.invitados.None? || b.horas.None?
  }

  /** Second check passes: `cedula` is a string with something besides white space. */
  predicate CedulaValida(cedula: Json) {
    cedula.Str? && Trim(cedula.s) != ""
  }

  /** What every stored booking satisfies. */
  predicate FiestaValida(f: Fiesta) {
    && f.cedula != ""
    && !IsSpace(f.cedula[0]) && !IsSpace(f.cedula[|f.cedula| - 1])
    && f.invitados > 0.0 && f.horas > 0.0
    && f.montoTotal == MontoTotal(f.invitados, f.horas)
    && f.montoTotal >= 0.0
  }

  /** `POST /api/fiestas`: the first failing check decides the error; on success the
      record holds the trimmed `cedula`, the numeric guests and hours, and a total the
      server computes. */
  function CrearFiesta(b: FiestaBody): (r: Result<Fiesta, FiestaError>)
    ensures r == Err(CamposObligatorios) <==> FaltanCampos(b)
    ensures r == Err(CedulaInvalida) <==> !FaltanCampos(b) && !CedulaValida(b.cedula)
    ensures r == Err(InvitadosInvalidos) <==>
              !FaltanCampos(b) && CedulaValida(b.cedula) && !PositiveFinite(b.invitados.value)
    ensures r == Err(HorasInvalidas) <==>
              !FaltanCampos(b) && CedulaValida(b.cedula) && PositiveFinite(b.invitados.value) &&
              !PositiveFinite(b.horas.value)
    ensures r.Ok? ==> FiestaValida(r.value)
    ensures r.Ok? ==> b.cedula.Str? && r.value.cedula == Trim(b.cedula.s) &&
                      b.invitados == Some(Finite(r.value.invitados)) &&
                      b.horas == Some(Finite(r.value.horas))
  {
    if FaltanCampos(b) then Err(CamposObligatorios)
    else if !(b.cedula.Str? && Trim(b.cedula.s) != "") then Err(CedulaInvalida)
    else if !PositiveFinite(b.invitados.value) then Err(InvitadosInvalidos)
    else if !PositiveFinite(b.horas.value) then Err(HorasInvalidas)
    else
      var invitados := b.invitados.value.x;
      var horas := b.horas.value.x;
      Ok(Fiesta(Trim(b.cedula.s), invitados, horas, MontoTotal(invitados, horas)))
  }

  /** Whatever `montoTotal` the client sends, the outcome is the same. */
  lemma MontoNoVieneDelCuerpo(b: FiestaBody, enviado: Option<Num>)
    ensures CrearFiesta(b.(montoTotal := enviado)) == CrearFiesta(b)
  {
  }

  /** A `cedula` made only of white space is refused as an invalid cedula, not as missing. */
  lemma CedulaEnBlanco(b: FiestaBody)
    requires b.cedula.Str? && b.cedula.s != "" && b.invitados.Some? && b.horas.Some?
    requires forall i :: 0 <= i < |b.cedula.s| ==> IsSpace(b.cedula.s[i])
    ensures CrearFiesta(b) == Err(CedulaInvalida)
  {
    TrimEmptyIff(b.cedula.s);
  }

  /** The bracket gaps are reachable: 50.5 guests for 3.5 hours pass validation and are
      stored with a total of 0. */
  lemma HuecoAlcanzable()
    ensures CrearFiesta(FiestaBody(Str("1"), Some(Finite(50.5)), Some(Finite(3.5)), None))
            == Ok(Fiesta("1", 50.5, 3.5, 0.0))
  {
    assert !IsSpace('1');
    assert TrimStart("1") == "1" && TrimEnd("1") == "1";
    assert TarifaPorInvitados(50.5) == 0 && CuotaPorHoras(3.5) == 0;
  }

  /** A stored document as `/resumen` reads it: a field is `None` when missing or
      when `Number(...)` of it is NaN. */
  datatype FiestaDoc = FiestaDoc(invitados: Option<real>, horas: Option<real>)

  /** What `POST` stores, as a document. */
  function ComoDocumento(f: Fiesta): FiestaDoc {
    FiestaDoc(Some(f.invitados), Some(f.horas))
  }

  /** `Number(x) || 0`. */
  function NumeroOCero(v: Option<real>): real {
    if v.Some? then v.value else 0.0
  }

  /** The three duration ranges of the summary. */
  datatype Rango = DeUnoATres | DeCuatroASeis | MasDeSeis

  /** The range a duration is counted in, if any; it is the same split as the fee tiers. */
  function RangoDeHoras(horas: real): (r: Option<Rango>)
    ensures r == None <==> CuotaPorHoras(horas) == 0
    ensures r == Some(DeUnoATres) <==> CuotaPorHoras(horas) == 50000
    ensures r == Some(DeCuatroASeis) <==> CuotaPorHoras(horas) == 100000
    ensures r == Some(MasDeSeis) <==> CuotaPorHoras(horas) == 200000
  {
    if 1.0 <= horas <= 3.0 then Some(DeUnoATres)
    else if 4.0 <= horas <= 6.0 then Some(DeCuatroASeis)
    else if horas > 6.0 then Some(MasDeSeis)
    else None
  }

  function TotalInvitados(docs: seq<FiestaDoc>): real {
    if docs == [] then 0.0
    else TotalInvitados(docs[..|docs| - 1]) + NumeroOCero(docs[|docs| - 1].invitados)
  }

  function TotalHoras(docs: seq<FiestaDoc>): real {
    if docs == [] then 0.0
    else TotalHoras(docs[..|docs| - 1]) + NumeroOCero(docs[|docs| - 1].horas)
  }

  /** How many documents fall in range `rango` (`None`: in no range). */
  function Conteo(docs: seq<FiestaDoc>, rango: Option<Rango>): nat {
    if docs == [] then 0
    else Conteo(docs[..|docs| - 1], rango) +
         (if RangoDeHoras(NumeroOCero(docs[|docs| - 1].horas)) == rango then 1 else 0)
  }

  /** The JSON object `/resumen` answers with. */
  datatype Resumen = Resumen(totalInvitados: real, totalHoras: real,
                             fiestasRango1a3: nat, fiestasRango4a6: nat, fiestasRangoMayor6: nat)

  /** `GET /api/fiestas/resumen`: one pass over the documents with five accumulators. */
  method CalcularResumen(docs: seq<FiestaDoc>) returns (r: Resumen)
    ensures r.totalInvitados == TotalInvitados(docs)
    ensures r.totalHoras == TotalHoras(docs)
    ensures r.fiestasRango1a3 == Conteo(docs, Some(DeUnoATres))
    ensures r.fiestasRango4a6 == Conteo(docs, Some(DeCuatroASeis))
    ensures r.fiestasRangoMayor6 == Conteo(docs, Some(MasDeSeis))
  {
    var totalInvitados, totalHoras := 0.0, 0.0;
    var rango13, rango46, rangoMayor6 := 0, 0, 0;
    for i := 0 to |docs|
      invariant totalInvitados == TotalInvitados(docs[..i])
      invariant totalHoras == TotalHoras(docs[..i])
      invariant rango13 == Conteo(docs[..i], Some(DeUnoATres))
      invariant rango46 == Conteo(docs[..i], Some(DeCuatroASeis))
      invariant rangoMayor6 == Conteo(docs[..i], Some(MasDeSeis))
    {
      assert docs[..i + 1][..i] == docs[..i];
      var invitados := NumeroOCero(docs[i].invitados);
      var horas := NumeroOCero(docs[i].horas);
      totalInvitados := totalInvitados + invitados;
      totalHoras := totalHoras + horas;
      if 1.0 <= horas <= 3.0 {
        rango13 := rango13 + 1;
      } else if 4.0 <= horas <= 6.0 {
        rango46 := rango46 + 1;
      } else if horas > 6.0 {
        rangoMayor6 := rangoMayor6 + 1;
      }
    }
    assert docs[..|docs|] == docs;
    r := Resumen(totalInvitados, totalHoras, rango13, rango46, rangoMayor6);
  }

  /** Every document lands in exactly one of the three ranges or in none, so the three
      counts add up to the number of documents less those in no range. */
  lemma {:induction false} ConteosParticion(docs: seq<FiestaDoc>)
    ensures Conteo(docs, Some(DeUnoATres)) + Conteo(docs, Some(DeCuatroASeis)) +
            Conteo(docs, Some(MasDeSeis)) + Conteo(docs, None) == |docs|
  {
    if docs != [] {
      ConteosParticion(docs[..|docs| - 1]);
    }
  }

  /** With no negative field, both totals are at least 0. */
  lemma {:induction false} TotalesNoNegativos(docs: seq<FiestaDoc>)
    requires forall i :: 0 <= i < |docs| ==> NumeroOCero(docs[i].invitados) >= 0.0
    requires forall i :: 0 <= i < |docs| ==> NumeroOCero(docs[i].horas) >= 0.0
    ensures TotalInvitados(docs) >= 0.0 && TotalHoras(docs) >= 0.0
  {
    if docs != [] {
      TotalesNoNegativos(docs[..|docs| - 1]);
    }
  }

  /** The totals and the counts over two runs of documents are the sums of theirs. */
  lemma {:induction false} TotalesAppend(a: seq<FiestaDoc>, b: seq<FiestaDoc>)
    ensures TotalInvitados(a + b) == TotalInvitados(a) + TotalInvitados(b)
    ensures TotalHoras(a + b) == TotalHoras(a) + TotalHoras(b)
    ensures forall rango :: Conteo(a + b, rango) == Conteo(a, rango) + Conteo(b, rango)
  {
    if b == [] {
      assert a + b == a;
    } else {
      var b' := b[..|b| - 1];
      TotalesAppend(a, b');
      assert (a + b)[..|a + b| - 1] == a + b';
      assert (a + b)[|a + b| - 1] == b[|b| - 1];
    }
  }

  /** Registering a booking adds its guests and hours to the totals, and adds one to the
      range counts exactly when its duration earns an hour fee: a booking of 3.5 hours
      is counted in no range. The store lists documents by their generated id, so the
      new one may come back at any position `k`. */
  lemma ResumenTrasRegistrar(docs: seq<FiestaDoc>, k: nat, b: FiestaBody)
    requires k <= |docs|
    requires CrearFiesta(b).Ok?
    ensures var f := CrearFiesta(b).value;
            var docs' := docs[..k] + [ComoDocumento(f)] + docs[k..];
            && TotalInvitados(docs') == TotalInvitados(docs) + f.invitados
            && TotalHoras(docs') == TotalHoras(docs) + f.horas
            && Conteo(docs', Some(DeUnoATres)) + Conteo(docs', Some(DeCuatroASeis)) +
               Conteo(docs', Some(MasDeSeis))
               == Conteo(docs, Some(DeUnoATres)) + Conteo(docs, Some(DeCuatroASeis)) +
                  Conteo(docs, Some(MasDeSeis)) + (if CuotaPorHoras(f.horas) > 0 then 1 else 0)
  {
    var f := CrearFiesta(b).value;
    var d := ComoDocumento(f);
    assert docs == docs[..k] + docs[k..];
    TotalesAppend(docs[..k], docs[k..]);
    TotalesAppend(docs[..k], [d]);
    TotalesAppend(docs[..k] + [d], docs[k..]);
    assert [d][..0] == [];
  }
}
