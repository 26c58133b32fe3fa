/**
  The front-end `Ventas` class: an in-memory collection of sales with the same four
  analyses as the back-end routes, computed on the client. Where the class and the
  routes answer differently for the same sales, the lemmas at the end of the module
  say how.
 */
module VentasLib {
  import opened JsValues
  import opened VentasRecords
  import opened VentasRoutes

  /** The first sale with the greatest price read as a number (a missing price reads 0):
      `max` starts at the first sale and is replaced only by a strictly greater price. */
  function IndiceVentaMayor(vs: seq<Venta>): (r: nat)
    requires |vs| > 0
    ensures r < |vs|
    ensures forall i :: 0 <= i < |vs| ==> PrecioONulo(vs[i]) <= PrecioONulo(vs[r])
    ensures forall i :: 0 <= i < r ==> PrecioONulo(vs[i]) < PrecioONulo(vs[r])
  {
    if |vs| == 1 then 0
    else
      var n := |vs| - 1;
      var p := IndiceVentaMayor(vs[..n]);
      if PrecioONulo(vs[n]) > PrecioONulo(vs[p]) then n else p
  }

  /** The first sale with the least price read as a number (a missing price reads 0). */
  function IndiceVentaMenor(vs: seq<Venta>): (r: nat)
    requires |vs| > 0
    ensures r < |vs|
    ensures forall i :: 0 <= i < |vs| ==> PrecioONulo(vs[r]) <= PrecioONulo(vs[i])
    ensures forall i :: 0 <= i < r ==> PrecioONulo(vs[r]) < PrecioONulo(vs[i])
  {
    if |vs| == 1 then 0
    else
      var n := |vs| - 1;
      var p := IndiceVentaMenor(vs[..n]);
      if PrecioONulo(vs[n]) < PrecioONulo(vs[p]) then n else p
  }

  /** The answer of `menorVentaPorInmueble`: the year, month and price as stored. */
  datatype VentaMenor = VentaMenor(anio: Num, mes: Num, precio: Option<real>)

  /** The object `addVenta` receives: `anio` and `mes` are `None` when they are not of
      type number. */
  datatype VentaEntrada = VentaEntrada(tipo: Json, anio: Option<Num>, mes: Option<Num>, precio: Option<real>)

  class Ventas {
    var ventas: seq<Venta>

    /** `inicial` is `None` when the argument is not an array; an array is copied. */
    constructor(inicial: Option<seq<Venta>>)
      ensures ventas == (if inicial.Some? then inicial.value else [])
    {
      ventas := if inicial.Some? then inicial.value else [];
    }

    /** `suma(mes)`: `mes` is `None` when it is not of type number. Only a month in
        1..12 can have a non-zero total, and then it is that month's total; NaN passes
        the range test but matches no sale. */
    function Suma(mes: Option<Num>): (r: real)
      reads this
      ensures r != 0.0 ==> mes.Some? && mes.value.Finite? && 1.0 <= mes.value.x <= 12.0
      ensures mes.Some? && mes.value.Finite? && 1.0 <= mes.value.x <= 12.0 ==>
                r == TotalDelMes(ventas, mes.value)
    {
      if mes.None? then 0.0
      else
        match mes.value
        case NaN =>
          TotalDelMesSinVentas(ventas, NaN);
          TotalDelMes(ventas, NaN)
        case Infinity(_) => 0.0
        case Finite(x) => if x < 1.0 || x > 12.0 then 0.0 else TotalDelMes(ventas, mes.value)
    }

    /** `promedioMensualPorTipo()`: the average price of each type, the same figures
        the `/promedios` route reports for the same sales. */
    method PromedioMensualPorTipo() returns (casa: real, apartamento: real)
      ensures casa == Promedio(ventas, "Casa")
      ensures apartamento == Promedio(ventas, "Apartamento")
    {
      var sumaCasa, countCasa := 0.0, 0;
      var sumaApto, countApto := 0.0, 0;
      for i := 0 to |ventas|
        invariant sumaCasa == TotalPrecios(DelTipo(ventas[..i], "Casa"))
        invariant countCasa == |DelTipo(ventas[..i], "Casa")|
        invariant sumaApto == TotalPrecios(DelTipo(ventas[..i], "Apartamento"))
        invariant countApto == |DelTipo(ventas[..i], "Apartamento")|
      {
        var v := ventas[i];
        assert ventas[..i + 1] == ventas[..i] + [v];
        DelTipoAlAgregar(ventas[..i], v, "Casa");
        DelTipoAlAgregar(ventas[..i], v, "Apartamento");
        if v.tipo == Str("Casa") {
          sumaCasa := sumaCasa + PrecioONulo(v);
          countCasa := countCasa + 1;
        } else if v.tipo == Str("Apartamento") {
          sumaApto := sumaApto + PrecioONulo(v);
          countApto := countApto + 1;
        }
      }
      assert ventas[..|ventas|] == ventas;
      casa := if countCasa > 0 then sumaCasa / countCasa as real else 0.0;
      apartamento := if countApto > 0 then sumaApto / countApto as real else 0.0;
    }

    /** `mesDeMayorVentaEnAnio(anio)`: `null` when no sale is of that year, otherwise
        the month of the year's first sale with the greatest single price. */
    method MesDeMayorVentaEnAnio(anio: Num) returns (r: Option<Num>)
      ensures r.None? <==> forall i :: 0 <= i < |ventas| ==> !StrictEq(ventas[i].anio, anio)
      ensures r.Some? ==> var vs := DelAnio(ventas, anio);
                          |vs| > 0 && r.value == vs[IndiceVentaMayor(vs)].mes
    {
      var ventasAnio := DelAnio(ventas, anio);
      FilterMiembros(ventas, EsDelAnio(anio));
      if |ventasAnio| == 0 {
        forall i | 0 <= i < |ventas| ensures !StrictEq(ventas[i].anio, anio) {
          assert !EsDelAnio(anio)(ventas[i]);
        }
        return None;
      }
      assert EsDelAnio(anio)(ventasAnio[0]) && ventasAnio[0] in ventas;
      var max := ventasAnio[0];
      ghost var indice: nat := 0;
      for i := 0 to |ventasAnio|
        invariant i > 0 ==> indice == IndiceVentaMayor(ventasAnio[..i])
        invariant indice < |ventasAnio| && max == ventasAnio[indice]
        invariant i == 0 ==> indice == 0
      {
        assert i > 0 ==> ventasAnio[..i + 1][..i] == ventasAnio[..i];
        if PrecioONulo(ventasAnio[i]) > PrecioONulo(max) {
          max := ventasAnio[i];
          indice := i;
        }
      }
      assert ventasAnio[..|ventasAnio|] == ventasAnio;
      return Some(max.mes);
    }

    /** `menorVentaPorInmueble(tipo)`: `null` when no sale is of that type, otherwise
        the year, month and stored price of the type's first sale with the least price,
        a missing price reading as 0. */
    method MenorVentaPorInmueble(tipo: string) returns (r: Option<VentaMenor>)
      ensures r.None? <==> forall i :: 0 <= i < |ventas| ==> ventas[i].tipo != Str(tipo)
      ensures r.Some? ==> var vs := DelTipo(ventas, tipo);
                          |vs| > 0 &&
                          var v := vs[IndiceVentaMenor(vs)];
                          r.value == VentaMenor(v.anio, v.mes, v.precio)
    {
      var ventasTipo := DelTipo(ventas, tipo);
      FilterMiembros(ventas, EsDelTipo(tipo));
      if |ventasTipo| == 0 {
        forall i | 0 <= i < |ventas| ensures ventas[i].tipo != Str(tipo) {
          assert !EsDelTipo(tipo)(ventas[i]);
        }
        return None;
      }
      assert EsDelTipo(tipo)(ventasTipo[0]) && ventasTipo[0] in ventas;
      var min := ventasTipo[0];
      ghost var indice: nat := 0;
      for i := 0 to |ventasTipo|
        invariant i > 0 ==> indice == IndiceVentaMenor(ventasTipo[..i])
        invariant indice < |ventasTipo| && min == ventasTipo[indice]
        invariant i == 0 ==> indice == 0
      {
        assert i > 0 ==> ventasTipo[..i + 1][..i] == ventasTipo[..i];
        if PrecioONulo(ventasTipo[i]) < PrecioONulo(min) {
          min := ventasTipo[i];
          indice := i;
        }
      }
      assert ventasTipo[..|ventasTipo|] == ventasTipo;
      return Some(VentaMenor(min.anio, min.mes, min.precio));
    }

    /** `addVenta(venta)`: `venta` is `None` when it is falsy or not an object. A copy
        is appended when the type is truthy and year and month are numbers; the price
        is not checked. */
    method AddVenta(venta: Option<VentaEntrada>) returns (ok: bool)
      modifies this
      ensures ok <==> venta.Some? && !Falsy(venta.value.tipo) && venta.value.anio.Some? && venta.value.mes.Some?
      ensures ok ==> var e := venta.value;
                     ventas == old(ventas) + [Venta(e.tipo, e.anio.value, e.mes.value, e.precio)]
      ensures !ok ==> ventas == old(ventas)
    {
      if venta.None? {
        return false;
      }
      var e := venta.value;
      if Falsy(e.tipo) || e.anio.None? || e.mes.None? {
        return false;
      }
      ventas := ventas + [Venta(e.tipo, e.anio.value, e.mes.value, e.precio)];
      return true;
    }
  }

  // ---------------------------------------------------------------------------
  // The class against the routes

  /** With no negative price, each month's entry in the route's `ventasPorMes` is at
      least the price of every sale of that month. */
  lemma {:induction false} TotalesCubrenCadaVenta(s: seq<Venta>, j: nat)
    requires forall i :: 0 <= i < |s| ==> PrecioONulo(s[i]) >= 0.0
    requires j < |s|
    ensures forall k :: k in TotalesPorMes(s) ==> TotalesPorMes(s)[k] >= 0.0
    ensures s[j].mes in TotalesPorMes(s) && TotalesPorMes(s)[s[j].mes] >= PrecioONulo(s[j])
  {
    var n := |s| - 1;
    var s' := s[..n];
    if n == 0 {
    } else if j < n {
      TotalesCubrenCadaVenta(s', j);
    } else {
      TotalesCubrenCadaVenta(s', 0);
    }
  }

  /** With no negative price, the single greatest sale the class picks never exceeds
      the greatest monthly total the route reports for the same sales. */
  lemma VentaMayorNoSuperaMesMayor(anio: int, s: seq<Venta>)
    requires |s| > 0
    requires forall i :: 0 <= i < |s| ==> PrecioONulo(s[i]) >= 0.0
    ensures PrecioONulo(s[IndiceVentaMayor(s)]) <= MesMayorDe(anio, s).totalVentas
  {
    TotalesCubrenCadaVenta(s, IndiceVentaMayor(s));
    MesMayorEsMaximo(anio, s);
  }

  /** The route and the class answer different months for the same sales of 2025: one
      sale of 100 in January and two of 60 in February. The route sums per month and
      answers February (120); the class answers January, the month of the single
      largest sale. */
  lemma MesMayorDifiere()
    ensures var casa := Str("Casa");
            var s := [Venta(casa, Finite(2025.0), Finite(1.0), Some(100.0)),
                      Venta(casa, Finite(2025.0), Finite(2.0), Some(60.0)),
                      Venta(casa, Finite(2025.0), Finite(2.0), Some(60.0))];
            && MesMayorDe(2025, s) == MesMayorRespuesta(2025, Some(Finite(2.0)), 120.0)
            && s[IndiceVentaMayor(s)].mes == Finite(1.0)
  {
    var casa := Str("Casa");
    var v1 := Venta(casa, Finite(2025.0), Finite(1.0), Some(100.0));
    var v2 := Venta(casa, Finite(2025.0), Finite(2.0), Some(60.0));
    var s := [v1, v2, v2];
    assert s[..1] == [v1] && s[..2] == [v1, v2] && [v1, v2][..1] == [v1];
    assert TotalesPorMes([v1]) == map[Finite(1.0) := 100.0];
    assert TotalesPorMes([v1, v2]) == map[Finite(1.0) := 100.0, Finite(2.0) := 60.0];
    assert TotalesPorMes(s) == map[Finite(1.0) := 100.0, Finite(2.0) := 120.0];
    assert OrdenClaves([v1]) == [Finite(1.0)];
    assert InsertarIndice([Finite(1.0)], Finite(2.0)) == [Finite(1.0), Finite(2.0)];
    assert OrdenClaves([v1, v2]) == [Finite(1.0), Finite(2.0)];
    assert OrdenClaves(s) == [Finite(1.0), Finite(2.0)];
    var totales := TotalesPorMes(s);
    var orden := [Finite(1.0), Finite(2.0)];
    assert orden[..1] == [Finite(1.0)];
    assert IndiceMesMayor(orden[..1], totales) == Some(0);
    assert IndiceMesMayor(orden, totales) == Some(1);
    assert IndiceVentaMayor(s[..1]) == 0;
    assert IndiceVentaMayor(s[..2]) == 0;
  }

  /** When every sale has a price, the route's and the class's least sale are the
      same one. */
  lemma MenorCoincideConPrecios(s: seq<Venta>)
    requires |s| > 0
    requires forall i :: 0 <= i < |s| ==> s[i].precio.Some?
    ensures IndiceMenor(s) == Some(IndiceVentaMenor(s))
  {
    var p := IndiceMenor(s).value;
    var q := IndiceVentaMenor(s);
    assert PrecioONulo(s[p]) == PrecioONulo(s[q]);
  }

  /** When some sale has no price and every price present is positive, the class picks a
      sale with no price, which it reads as 0, and the route, which skips such a sale,
      picks a different one. */
  lemma MenorDifiereConPrecioFaltante(s: seq<Venta>)
    requires exists i :: 0 <= i < |s| && s[i].precio.None?
    requires forall i :: 0 <= i < |s| && s[i].precio.Some? ==> s[i].precio.value > 0.0
    ensures |s| > 0 && s[IndiceVentaMenor(s)].precio.None?
    ensures IndiceMenor(s) != Some(IndiceVentaMenor(s))
  {
    var j :| 0 <= j < |s| && s[j].precio.None?;
    var q := IndiceVentaMenor(s);
    assert PrecioONulo(s[q]) <= PrecioONulo(s[j]) == 0.0;
  }

  /** One instance: a "Casa" sale at 100 and one with no price. The route answers the
      sale at 100; the class picks the sale with no price. */
  lemma MenorDifiereSinPrecio()
    ensures var casa := Str("Casa");
            var s := [Venta(casa, Finite(2024.0), Finite(5.0), Some(100.0)),
                      Venta(casa, Finite(2024.0), Finite(6.0), None)];
            && MenorDe("Casa", s) == MenorRespuesta("Casa", Some(Finite(2024.0)), Some(Finite(5.0)), Some(100.0))
            && IndiceVentaMenor(s) == 1
  {
    var casa := Str("Casa");
    var s := [Venta(casa, Finite(2024.0), Finite(5.0), Some(100.0)),
              Venta(casa, Finite(2024.0), Finite(6.0), None)];
    assert s[..1] == [s[0]];
  }
}
