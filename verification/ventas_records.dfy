/**
  The property-sale ("venta") record and the folds over a collection of sales that both
  the route handlers and the `Ventas` class compute: filtering by a field, the total of
  the prices and the average price per property type.
 */
module VentasRecords {
  import opened JsValues

  /** A sale as stored. `precio` is `None` when it is missing or NaN. Such a price reads
      as 0 in every sum and average and in the class's comparisons; `/menor-por-tipo`
      skips the sale instead. */
  datatype Venta = Venta(tipo: Json, anio: Num, mes: Num, precio: Option<real>)

  /** `precio || 0` in the routes and `Number(precio) || 0` in the class. */
  function PrecioONulo(v: Venta): real {
    if v.precio.Some? then v.precio.value else 0.0
  }

  /** `Array.prototype.filter`, and the equality filter of a store query: the elements
      satisfying `p`, in their original order. */
  function Filter<T>(s: seq<T>, p: T -> bool): seq<T> {
    if s == [] then []
    else Filter(s[..|s| - 1], p) + (if p(s[|s| - 1]) then [s[|s| - 1]] else [])
  }

  /** The filter keeps exactly the elements satisfying `p`, and no more than it got. */
  lemma {:induction false} FilterMiembros<T>(s: seq<T>, p: T -> bool)
    ensures |Filter(s, p)| <= |s|
    ensures forall i :: 0 <= i < |Filter(s, p)| ==> p(Filter(s, p)[i]) && Filter(s, p)[i] in s
    ensures forall i :: 0 <= i < |s| && p(s[i]) ==> s[i] in Filter(s, p)
  {
    if s != [] {
      var s' := s[..|s| - 1];
      FilterMiembros(s', p);
      assert s == s' + [s[|s| - 1]];
    }
  }

  lemma FilterSnoc<T>(s: seq<T>, x: T, p: T -> bool)
    ensures Filter(s + [x], p) == Filter(s, p) + (if p(x) then [x] else [])
  {
    assert (s + [x])[..|s|] == s;
  }

  lemma {:induction false} FilterAppend<T>(s: seq<T>, t: seq<T>, p: T -> bool)
    ensures Filter(s + t, p) == Filter(s, p) + Filter(t, p)
  {
    if t == [] {
      assert s + t == s;
    } else {
      var t' := t[..|t| - 1];
      var x := t[|t| - 1];
      assert s + t == (s + t') + [x];
      assert t == t' + [x];
      FilterAppend(s, t', p);
      FilterSnoc(s + t', x, p);
      FilterSnoc(t', x, p);
    }
  }

  lemma {:induction false} FilterNinguno<T>(s: seq<T>, p: T -> bool)
    requires forall i :: 0 <= i < |s| ==> !p(s[i])
    ensures Filter(s, p) == []
  {
    if s != [] {
      FilterNinguno(s[..|s| - 1], p);
    }
  }

  /** The three equality tests the folds filter by. */
  function EsDelMes(mes: Num): Venta -> bool {
    (v: Venta) => StrictEq(v.mes, mes)
  }

  function EsDelAnio(anio: Num): Venta -> bool {
    (v: Venta) => StrictEq(v.anio, anio)
  }

  function EsDelTipo(tipo: string): Venta -> bool {
    (v: Venta) => v.tipo == Str(tipo)
  }

  /** Sales of a month (`v.mes === mes`, or the store's `where("mes", "==", mes)`). */
  function DelMes(vs: seq<Venta>, mes: Num): seq<Venta> {
    Filter(vs, EsDelMes(mes))
  }

  /** Sales of a year. */
  function DelAnio(vs: seq<Venta>, anio: Num): seq<Venta> {
    Filter(vs, EsDelAnio(anio))
  }

  /** Sales of a property type. */
  function DelTipo(vs: seq<Venta>, tipo: string): seq<Venta> {
    Filter(vs, EsDelTipo(tipo))
  }

  /** The sum of the prices, a missing price counting as 0, added from first to last. */
  function TotalPrecios(vs: seq<Venta>): real {
    if vs == [] then 0.0 else TotalPrecios(vs[..|vs| - 1]) + PrecioONulo(vs[|vs| - 1])
  }

  lemma TotalPreciosSnoc(vs: seq<Venta>, v: Venta)
    ensures TotalPrecios(vs + [v]) == TotalPrecios(vs) + PrecioONulo(v)
  {
    assert (vs + [v])[..|vs|] == vs;
  }

  lemma {:induction false} TotalPreciosAppend(s: seq<Venta>, t: seq<Venta>)
    ensures TotalPrecios(s + t) == TotalPrecios(s) + TotalPrecios(t)
  {
    if t == [] {
      assert s + t == s;
    } else {
      var t' := t[..|t| - 1];
      var x := t[|t| - 1];
      assert s + t == (s + t') + [x];
      assert t == t' + [x];
      TotalPreciosAppend(s, t');
      TotalPreciosSnoc(s + t', x);
    }
  }

  /** When every price read lies in [lo, hi], the total lies in [n * lo, n * hi]. */
  lemma {:induction false} TotalPreciosEntre(vs: seq<Venta>, lo: real, hi: real)
    requires forall i :: 0 <= i < |vs| ==> lo <= PrecioONulo(vs[i]) <= hi
    ensures |vs| as real * lo <= TotalPrecios(vs) <= |vs| as real * hi
  {
    if vs != [] {
      var n := |vs| - 1;
      TotalPreciosEntre(vs[..n], lo, hi);
      assert lo <= PrecioONulo(vs[n]) <= hi;
      assert |vs| as real * lo == n as real * lo + lo;
      assert |vs| as real * hi == n as real * hi + hi;
    }
  }

  lemma {:induction false} TotalPreciosNoNegativo(vs: seq<Venta>)
    requires forall i :: 0 <= i < |vs| ==> PrecioONulo(vs[i]) >= 0.0
    ensures TotalPrecios(vs) >= 0.0
  {
    if vs != [] {
      TotalPreciosNoNegativo(vs[..|vs| - 1]);
    }
  }

  /** With no negative price, the total is at least each single price. */
  lemma {:induction false} TotalPreciosCubreCadaVenta(vs: seq<Venta>, k: nat)
    requires forall i :: 0 <= i < |vs| ==> PrecioONulo(vs[i]) >= 0.0
    requires k < |vs|
    ensures TotalPrecios(vs) >= PrecioONulo(vs[k])
  {
    var n := |vs| - 1;
    if k < n {
      TotalPreciosCubreCadaVenta(vs[..n], k);
    } else {
      TotalPreciosNoNegativo(vs[..n]);
    }
  }

  /** The total of the prices of a month: `suma` of both the route and the class. */
  function TotalDelMes(vs: seq<Venta>, mes: Num): real {
    TotalPrecios(DelMes(vs, mes))
  }

  /** A month with no sale totals 0. */
  lemma TotalDelMesSinVentas(vs: seq<Venta>, mes: Num)
    requires forall i :: 0 <= i < |vs| ==> !StrictEq(vs[i].mes, mes)
    ensures TotalDelMes(vs, mes) == 0.0
  {
    FilterNinguno(vs, EsDelMes(mes));
  }

  /** One more sale changes the total of its own month by its price, and no other. */
  lemma TotalDelMesAlAgregar(vs: seq<Venta>, v: Venta, mes: Num)
    ensures TotalDelMes(vs + [v], mes) ==
            TotalDelMes(vs, mes) + (if StrictEq(v.mes, mes) then PrecioONulo(v) else 0.0)
  {
    FilterSnoc(vs, v, EsDelMes(mes));
    if StrictEq(v.mes, mes) {
      TotalPreciosSnoc(DelMes(vs, mes), v);
    } else {
      assert DelMes(vs + [v], mes) == DelMes(vs, mes);
    }
  }

  /** A sale stored at any position changes its own month's total by its price, and no
      other month's total. */
  lemma TotalDelMesAlInsertar(vs: seq<Venta>, k: nat, v: Venta, mes: Num)
    requires k <= |vs|
    ensures TotalDelMes(vs[..k] + [v] + vs[k..], mes) ==
            TotalDelMes(vs, mes) + (if StrictEq(v.mes, mes) then PrecioONulo(v) else 0.0)
  {
    var p := EsDelMes(mes);
    assert vs == vs[..k] + vs[k..];
    FilterAppend(vs[..k], vs[k..], p);
    FilterAppend(vs[..k] + [v], vs[k..], p);
    TotalPreciosAppend(Filter(vs[..k], p), Filter(vs[k..], p));
    TotalPreciosAppend(Filter(vs[..k] + [v], p), Filter(vs[k..], p));
    TotalDelMesAlAgregar(vs[..k], v, mes);
  }

  /** One more sale adds its price to its type's total and one to its type's count. */
  lemma DelTipoAlAgregar(vs: seq<Venta>, v: Venta, tipo: string)
    ensures |DelTipo(vs + [v], tipo)| == |DelTipo(vs, tipo)| + (if v.tipo == Str(tipo) then 1 else 0)
    ensures TotalPrecios(DelTipo(vs + [v], tipo)) ==
            TotalPrecios(DelTipo(vs, tipo)) + (if v.tipo == Str(tipo) then PrecioONulo(v) else 0.0)
  {
    FilterSnoc(vs, v, EsDelTipo(tipo));
    if v.tipo == Str(tipo) {
      TotalPreciosSnoc(DelTipo(vs, tipo), v);
    } else {
      assert DelTipo(vs + [v], tipo) == DelTipo(vs, tipo);
    }
  }

  /** The average price of a type: the total over the count, and 0 when there is none. */
  function Promedio(vs: seq<Venta>, tipo: string): real {
    var ds := DelTipo(vs, tipo);
    if |ds| > 0 then TotalPrecios(ds) / |ds| as real else 0.0
  }

  /** A type with no sale averages 0. */
  lemma PromedioSinVentas(vs: seq<Venta>, tipo: string)
    requires forall i :: 0 <= i < |vs| ==> vs[i].tipo != Str(tipo)
    ensures Promedio(vs, tipo) == 0.0
  {
    FilterNinguno(vs, EsDelTipo(tipo));
  }

  /** The average lies between the smallest and the largest price of its type. */
  lemma PromedioEntreExtremos(vs: seq<Venta>, tipo: string, lo: real, hi: real)
    requires forall i :: 0 <= i < |vs| && vs[i].tipo == Str(tipo) ==> lo <= PrecioONulo(vs[i]) <= hi
    requires exists i :: 0 <= i < |vs| && vs[i].tipo == Str(tipo)
    ensures lo <= Promedio(vs, tipo) <= hi
  {
    var ds := DelTipo(vs, tipo);
    assert |ds| > 0 && forall j :: 0 <= j < |ds| ==> lo <= PrecioONulo(ds[j]) <= hi by {
      FilterMiembros(vs, EsDelTipo(tipo));
      var i :| 0 <= i < |vs| && vs[i].tipo == Str(tipo);
      assert EsDelTipo(tipo)(vs[i]);
      assert vs[i] in ds;
      forall j | 0 <= j < |ds| ensures lo <= PrecioONulo(ds[j]) <= hi {
        assert EsDelTipo(tipo)(ds[j]) && ds[j] in vs;
      }
    }
    TotalPreciosEntre(ds, lo, hi);
    CocienteEntre(TotalPrecios(ds), |ds| as real, lo, hi);
  }

  lemma CocienteEntre(t: real, n: real, lo: real, hi: real)
    requires n > 0.0 && n * lo <= t <= n * hi
    ensures lo <= t / n <= hi
  {
    assert t / n - lo == (t - n * lo) / n;
    assert hi - t / n == (n * hi - t) / n;
  }

  /** A sale of another type leaves the average of `tipo` as it was. */
  lemma PromedioIgnoraOtrosTipos(vs: seq<Venta>, v: Venta, tipo: string)
    requires v.tipo != Str(tipo)
    ensures Promedio(vs + [v], tipo) == Promedio(vs, tipo)
  {
    FilterSnoc(vs, v, EsDelTipo(tipo));
    assert DelTipo(vs + [v], tipo) == DelTipo(vs, tipo);
  }

  /** A sale of the type with a missing price still counts: it adds one to the count and
      nothing to the total. */
  lemma PromedioConPrecioFaltante(vs: seq<Venta>, v: Venta, tipo: string)
    requires v.tipo == Str(tipo) && v.precio.None?
    ensures Promedio(vs + [v], tipo) ==
            TotalPrecios(DelTipo(vs, tipo)) / (|DelTipo(vs, tipo)| + 1) as real
  {
    FilterSnoc(vs, v, EsDelTipo(tipo));
    TotalPreciosSnoc(DelTipo(vs, tipo), v);
  }

  /** What every sale accepted by `POST /api/ventas` satisfies. */
  predicate VentaRegistrada(v: Venta) {
    && (v.tipo == Str("Casa") || v.tipo == Str("Apartamento"))
    && v.anio.Finite? && 2000.0 <= v.anio.x <= 2100.0
    && v.mes.Finite? && 1.0 <= v.mes.x <= 12.0
    && v.precio.Some? && v.precio.value > 0.0
  }
}
