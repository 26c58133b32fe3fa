# Fiestas Tarragona: the pricing and sales logic, in Dafny

This project models the computations of the "proyecto-fiestas-tarragona" back end and
front end. It has two families of computations.

- **Event bookings ("fiestas").**
  - The two tariff tables: a per-guest rate by guest count and an hour fee by duration.
  - The total charged for an event.
  - The validation chain of `POST /api/fiestas`.
  - The `/api/fiestas/resumen` summary fold.
- **Property sales ("ventas").**
  - The validation chain of `POST /api/ventas`.
  - The four route queries `/suma`, `/promedios`, `/mes-mayor` and `/menor-por-tipo`.
  - The client-side `Ventas` class, which answers the same questions over an in-memory
    array and can be appended to.

The store behind the routes is a parameter: each handler receives the stored records as
a sequence, in the order the store returns them. A `where(campo, "==", valor)` query is a
filter of that sequence.

JavaScript values are modelled explicitly in module `JsValues`:
- numbers are `Finite(x)` over unbounded reals, `NaN` or an infinity;
- request-body values carry truthiness (`Falsy`);
- `===` on numbers is `StrictEq`;
- `String.prototype.trim` removes the ECMAScript white-space and line-terminator characters.

A stored price is an `Option<real>`: `None` stands for a price that is missing or NaN.
Such a price reads as 0 in every sum and average (`precio || 0`, `Number(precio) || 0`)
and in the class's comparisons. `/menor-por-tipo` instead skips the sale, because
`precio < menorVenta` is false for it.

Files:
- `js_values.dfy`: module `JsValues`.
- `fiestas_routes.dfy`: module `FiestasRoutes`.
- `ventas_records.dfy`: module `VentasRecords`. The sale record, the filters and the
  totals and averages shared by the routes and the class.
- `ventas_routes.dfy`: module `VentasRoutes`.
- `ventas_lib.dfy`: module `VentasLib`. The class `Ventas`, and lemmas that compare its
  answers with the routes' answers.

Each loop in the source is a method with a loop. It is proved equal to a specification
function defined over the sequence of records, and the properties are proved about those
functions:
- the `/resumen` `forEach`;
- the accumulations of `/suma` and `/promedios`;
- the grouping and running maximum of `/mes-mayor`;
- the running minimum of `/menor-por-tipo`;
- the loops of the class methods.

The class's query methods have no `modifies` clause, so they leave `ventas` unchanged.

Two behaviours of the code are worth knowing:

- **The tariff brackets have gaps.** Validation accepts any finite positive number.
  - Guests strictly between 50 and 51, or below 1, get rate 0.
  - Hours strictly between 3 and 4, or below 1, get fee 0.
  - `HuecoAlcanzable` exhibits a booking that passes validation with a total of 0.
  - Whole numbers of guests and hours never fall into a gap (`EnterosSinHuecos`).
- **The route and the class disagree on "the month of greatest sales".**
  - `/mes-mayor` sums the prices per month and answers the first month, in JavaScript's
    key order, with the greatest total, or none when no total exceeds 0.
  - `mesDeMayorVentaEnAnio` returns the month of the single highest-priced sale.
  - `MesMayorDifiere` gives sales on which they answer different months.
  - The least-sale queries also differ: the route skips a sale whose price is missing,
    while the class reads that price as 0. When some price is missing and every price
    present is positive, they pick different sales (`MenorDifiereConPrecioFaltante`).
    When every price is present, they pick the same sale (`MenorCoincideConPrecios`).

## Model

| member | source | states |
|---|---|---|
| JsValues.TrimStart | backend/routes/fiestasRoutes.js:35 | Drops exactly the leading white space: the result is a suffix that does not start with white space, and everything dropped is white space. |
| JsValues.TrimEnd | backend/routes/fiestasRoutes.js:35 | Drops exactly the trailing white space: the result is a prefix that does not end with white space, and everything dropped is white space. |
| JsValues.Trim | backend/routes/fiestasRoutes.js:56 | `cedula.trim()` is a piece of the input that neither starts nor ends with white space, and only white space was removed on either side. |
| JsValues.TrimEmptyIff | backend/routes/fiestasRoutes.js:35 | `cedula.trim() === ""` exactly when every character is white space. |
| FiestasRoutes.TarifaPorInvitados | backend/routes/fiestasRoutes.js:8-13 | The rate is one of 0, 15000, 20000 and 25000. It is 0 exactly for fewer than 1 guest or strictly between 50 and 51 guests. |
| FiestasRoutes.CuotaPorHoras | backend/routes/fiestasRoutes.js:15-20 | The fee is one of 0, 50000, 100000 and 200000. It is 0 exactly for less than 1 hour or strictly between 3 and 4 hours. |
| FiestasRoutes.TarifaNoCrece | backend/routes/fiestasRoutes.js:8-13 | Outside the gaps, more guests never get a higher per-guest rate. |
| FiestasRoutes.CuotaNoDecrece | backend/routes/fiestasRoutes.js:15-20 | Outside the gaps, more hours never get a lower fee. |
| FiestasRoutes.EnterosSinHuecos | backend/routes/fiestasRoutes.js:8-20 | At least one guest and at least one hour, in whole numbers, always get a non-zero rate and a non-zero fee. |
| FiestasRoutes.MontoTotal | backend/routes/fiestasRoutes.js:51-53 | For a non-negative guest count, the total is at least the hour fee, which is non-negative. |
| FiestasRoutes.MontoEjemplos | backend/routes/fiestasRoutes.js:51-53 | 50 guests for 3 hours cost 1,300,000. 51 guests (1,070,000) cost less than 50, and 101 guests cost less than 100. |
| FiestasRoutes.CrearFiesta | backend/routes/fiestasRoutes.js:28-60 | Each of the four 400 errors is returned exactly when its check is the first to fail, in the order missing field, cedula, guests, hours. A created booking has the trimmed cedula, the numeric guests and hours as sent, and the total computed from them. It satisfies `FiestaValida`. |
| FiestasRoutes.MontoNoVieneDelCuerpo | backend/routes/fiestasRoutes.js:51-60 | A `montoTotal` sent in the body changes nothing: the stored total is always computed by the server. |
| FiestasRoutes.CedulaEnBlanco | backend/routes/fiestasRoutes.js:35-37 | A non-empty cedula made only of white space is rejected as an invalid cedula. |
| FiestasRoutes.HuecoAlcanzable | backend/routes/fiestasRoutes.js:42-53 | 50.5 guests for 3.5 hours pass validation, and the booking is stored with a total of 0. |
| FiestasRoutes.RangoDeHoras | backend/routes/fiestasRoutes.js:111-113 | A booking's `/resumen` bucket corresponds to its hour-fee tier: no bucket exactly when the fee is 0, and each bucket exactly when the fee is that bucket's. |
| FiestasRoutes.CalcularResumen | backend/routes/fiestasRoutes.js:97-122 | The `forEach` computes the guest and hour totals (a missing or non-numeric field counts as 0) and the count of bookings in each bucket. |
| FiestasRoutes.ConteosParticion | backend/routes/fiestasRoutes.js:111-113 | Each booking is counted in at most one bucket. The three bucket counts and the count of bookings in no bucket add up to the number of bookings. |
| FiestasRoutes.TotalesNoNegativos | backend/routes/fiestasRoutes.js:105-109 | When no stored figure is negative, both totals are non-negative. |
| FiestasRoutes.TotalesAppend | backend/routes/fiestasRoutes.js:103-114 | The totals and the bucket counts over two runs of documents are the sums of theirs, so they do not depend on where a run is split. |
| FiestasRoutes.ResumenTrasRegistrar | backend/routes/fiestasRoutes.js:55-62 | Storing a booking accepted by `POST`, wherever the store lists it, raises the totals by its guests and hours. It adds one to the bucket counts exactly when its hour fee is non-zero. |
| VentasRecords.FilterMiembros | backend/routes/ventasRoutes.js:93 | A store equality query returns exactly the records satisfying the test, and no more records than there are. |
| VentasRecords.FilterSnoc | frontend/src/lib/ventas.js:21 | Filtering after appending one record appends it to the filtered result when it satisfies the test. |
| VentasRecords.FilterAppend | frontend/src/lib/ventas.js:21 | Filtering distributes over concatenation. |
| VentasRecords.FilterNinguno | frontend/src/lib/ventas.js:21 | When no record satisfies the test, the filter is empty. |
| VentasRecords.TotalPreciosSnoc | backend/routes/ventasRoutes.js:95-98 | Each record adds its price (0 when missing) to the running sum. |
| VentasRecords.TotalPreciosAppend | backend/routes/ventasRoutes.js:95-98 | The sum over two runs of records is the sum of their sums. |
| VentasRecords.TotalPreciosEntre | backend/routes/ventasRoutes.js:95-98 | When every price read lies in [lo, hi], the sum of n prices lies in [n·lo, n·hi]. |
| VentasRecords.TotalPreciosNoNegativo | backend/routes/ventasRoutes.js:95-98 | With no negative price, the sum is non-negative. |
| VentasRecords.TotalPreciosCubreCadaVenta | backend/routes/ventasRoutes.js:95-98 | With no negative price, the sum is at least every single price. |
| VentasRecords.TotalDelMesSinVentas | backend/routes/ventasRoutes.js:93-100 | A month with no sale totals 0. |
| VentasRecords.TotalDelMesAlAgregar | backend/routes/ventasRoutes.js:93-100 | One more sale changes its own month's total by its price and leaves every other month's total unchanged. |
| VentasRecords.TotalDelMesAlInsertar | backend/routes/ventasRoutes.js:93-98 | A sale stored at any position changes its own month's total by its price and leaves every other month's total unchanged. |
| VentasRecords.DelTipoAlAgregar | backend/routes/ventasRoutes.js:115-127 | One more sale adds one to its type's count and its price to its type's sum. Other types are unchanged. |
| VentasRecords.PromedioSinVentas | backend/routes/ventasRoutes.js:129-130 | A type with no sale averages 0. |
| VentasRecords.PromedioEntreExtremos | backend/routes/ventasRoutes.js:129-130 | When a type has a sale, its average lies between the least and the greatest price of that type. |
| VentasRecords.CocienteEntre | backend/routes/ventasRoutes.js:129-130 | An average of n values within [lo, hi] lies within [lo, hi]. |
| VentasRecords.PromedioIgnoraOtrosTipos | backend/routes/ventasRoutes.js:115-127 | A sale of another type leaves a type's average unchanged. |
| VentasRecords.PromedioConPrecioFaltante | backend/routes/ventasRoutes.js:115-127 | A sale of the type with a missing price still adds one to the count and adds nothing to the sum. |
| VentasRoutes.CrearVenta | backend/routes/ventasRoutes.js:20-44 | Each of the five 400 errors is returned exactly when its check is the first to fail, in the order missing field, type, year, month, price. An accepted sale is stored exactly as sent and satisfies `VentaRegistrada`: type Casa or Apartamento, year 2000..2100, month 1..12, positive price. |
| VentasRoutes.CeroEsCampoFaltante | backend/routes/ventasRoutes.js:23-25 | A year, month or price of 0 is reported as a missing field, not as out of range. |
| VentasRoutes.Suma | backend/routes/ventasRoutes.js:88-101 | A month that is unparseable, 0 or outside 1..12 is rejected with "Mes inválido". Otherwise the answer is that month's total over the stored sales. |
| VentasRoutes.SumaTrasRegistrar | backend/routes/ventasRoutes.js:44-50 | After a sale accepted by `POST` is stored, wherever the store lists it, its month totals at least its price, provided no stored price is negative. |
| VentasRoutes.Promedios | backend/routes/ventasRoutes.js:111-136 | The answer is the average price of Casa sales and of Apartamento sales, each 0 when there are none. Other types are ignored. |
| VentasRoutes.InsertarIndice | backend/routes/ventasRoutes.js:155-157 | Creating a new array-index key adds exactly that key to the object's key list. |
| VentasRoutes.InsertarIndiceOrdenado | backend/routes/ventasRoutes.js:155-157 | Creating an array-index key keeps the JavaScript key order: no key twice, and index keys first and ascending. |
| VentasRoutes.InsertarIndiceDivide | backend/routes/ventasRoutes.js:155-157 | Creating an index key inserts it at one point of the key list and keeps the other keys in their order. |
| VentasRoutes.OrdenClavesCorrecto | backend/routes/ventasRoutes.js:153-161 | The entries `Object.entries(ventasPorMes)` visits are the months of the sales, once each, with the array-index months first and ascending. |
| VentasRoutes.PrimeraPosicion | backend/routes/ventasRoutes.js:155-157 | The position of the first sale of a month, where its key is created, or the number of sales when the month does not occur. |
| VentasRoutes.PrimeraPosicionSnoc | backend/routes/ventasRoutes.js:155-157 | One more sale keeps the creation point of every month that already occurred, and a new month is created at the new sale. |
| VentasRoutes.OrdenClavesMeses | backend/routes/ventasRoutes.js:155-157 | A month has a key exactly when some sale is of that month. |
| VentasRoutes.OrdenClavesSigueJs | backend/routes/ventasRoutes.js:153-163 | The entries come in JavaScript's own-key order: array-index months first and ascending, then the other months in the order their keys were created. |
| VentasRoutes.SigueJsMesConocido | backend/routes/ventasRoutes.js:157-158 | A sale of a month that already has a key leaves the key order as it was. |
| VentasRoutes.SigueJsIndiceNuevo | backend/routes/ventasRoutes.js:157 | A new array-index month keeps the key order. |
| VentasRoutes.SigueJsClaveNueva | backend/routes/ventasRoutes.js:157 | A new month that is not an array index goes last in the key order. |
| VentasRoutes.TotalesPorMesSonSumas | backend/routes/ventasRoutes.js:153-159 | Each entry of `ventasPorMes` is that month's total, the figure `/suma` reports for it. A month with no entry totals 0. |
| VentasRoutes.IndiceMesMayor | backend/routes/ventasRoutes.js:161-168 | The running maximum from 0 picks nothing when no total exceeds 0. Otherwise it picks an entry whose total exceeds 0, is at least every total and is strictly greater than every earlier entry's total. |
| VentasRoutes.AgruparPorMes | backend/routes/ventasRoutes.js:153-159 | The `forEach` builds exactly the per-month totals, with its keys in JavaScript's order. |
| VentasRoutes.RecorrerEntradas | backend/routes/ventasRoutes.js:161-168 | The loop over the entries leaves `mesMayor` and `maxVenta` at the entry the running maximum picks, or at `null` and 0. |
| VentasRoutes.MesMayor | backend/routes/ventasRoutes.js:146-175 | A missing, unparseable or zero year is rejected with "Año inválido". Otherwise the answer is the running maximum over the year's per-month totals. |
| VentasRoutes.MesMayorEsMaximo | backend/routes/ventasRoutes.js:161-170 | `totalVentas` is non-negative and at least every month's total. `mesMayor` is `null` exactly when no month total exceeds 0, and the total is then 0. Otherwise `mesMayor` is a month whose total is `totalVentas`. |
| VentasRoutes.MesMayorDesempate | backend/routes/ventasRoutes.js:161-168 | On a tie the month JavaScript lists first wins: every month listed before the answer has a strictly smaller total. The array-index months 0..2^32-2 come first and ascending, and then every other month in the order its key was created. |
| VentasRoutes.IndiceMenor | backend/routes/ventasRoutes.js:188-199 | The running minimum from `Infinity` picks nothing exactly when no sale has a price. Otherwise it picks a sale with a price that is at most every price and strictly below every earlier price. |
| VentasRoutes.MenorPorTipo | backend/routes/ventasRoutes.js:181-202 | A missing or empty type is rejected with "Tipo requerido". Otherwise the answer holds the year, month and price of the type's first least-priced sale, or `null`, `null` and `Infinity` when no sale of the type has a price. |
| VentasLib.IndiceVentaMayor | frontend/src/lib/ventas.js:49-50 | The running maximum from the first sale picks a sale whose price is at least every price and strictly above every earlier price. |
| VentasLib.IndiceVentaMenor | frontend/src/lib/ventas.js:59-60 | The running minimum from the first sale picks a sale whose price is at most every price and strictly below every earlier price. |
| VentasLib.Ventas.constructor | frontend/src/lib/ventas.js:12-15 | An array argument becomes the collection. Anything else gives an empty collection. |
| VentasLib.Ventas.Suma | frontend/src/lib/ventas.js:18-23 | A non-zero answer needs a numeric month in 1..12, and for such a month the answer is its total. Non-numbers, out-of-range numbers and NaN give 0. |
| VentasLib.Ventas.PromedioMensualPorTipo | frontend/src/lib/ventas.js:26-43 | The averages of Casa and Apartamento are the same figures `/promedios` reports for the same sales. |
| VentasLib.Ventas.MesDeMayorVentaEnAnio | frontend/src/lib/ventas.js:46-52 | The answer is `null` exactly when no sale is of the year. Otherwise it is the month of the year's first sale with the greatest single price. |
| VentasLib.Ventas.MenorVentaPorInmueble | frontend/src/lib/ventas.js:56-62 | The answer is `null` exactly when no sale is of the type. Otherwise it is the year, month and stored price of the type's first least-priced sale. |
| VentasLib.Ventas.AddVenta | frontend/src/lib/ventas.js:65-71 | Succeeds exactly for an object with a truthy type and numeric year and month, and then appends a copy. On failure the collection is unchanged. The price is not checked. |
| VentasLib.TotalesCubrenCadaVenta | backend/routes/ventasRoutes.js:153-159 | With no negative price, every entry of `ventasPorMes` is non-negative and at least the price of each sale of its month. |
| VentasLib.VentaMayorNoSuperaMesMayor | frontend/src/lib/ventas.js:46-52 | With no negative price, the class's single greatest sale never exceeds the route's `totalVentas` for the same sales. |
| VentasLib.MesMayorDifiere | backend/routes/ventasRoutes.js:153-170 | For sales of 100 in January and 60 twice in February, the route answers February with 120, while the class answers January. |
| VentasLib.MenorCoincideConPrecios | frontend/src/lib/ventas.js:56-62 | When every sale has a price, the route and the class pick the same least sale. |
| VentasLib.MenorDifiereConPrecioFaltante | frontend/src/lib/ventas.js:56-62 | When some sale has no price and every present price is positive, the class picks a sale with no price, and the route picks a different sale. |
| VentasLib.MenorDifiereSinPrecio | backend/routes/ventasRoutes.js:188-199 | For one "Casa" sale at 100 and one with no price, the route answers the sale at 100 and the class picks the sale with no price. |

## Left out

- Firestore access (`add`, `get`, `where`) is out of the model. The records the store returns are an input sequence, and the equality query is a filter.
- Express plumbing is out of the model: routers, response writing, the try/catch that answers 500, the two `GET /` listings that return the stored records unchanged, and `backend/server.js`. Responses are result values. A 400 response is named by its error constructor; the text of its message is not modelled.
- The React components are not part of this model.
- JavaScript numbers are idealised as unbounded reals. IEEE rounding of sums and averages, and of `invitados * tarifa`, is not modelled.
- String-to-number coercion is not modelled.
  - Fiesta inputs are the results of `Number(...)` (`None` for `undefined`).
  - A venta body's numeric field is an absent or finite JSON number.
  - A stored price is a number or is missing.
  - Stored years and months are numbers.
  - A price stored as a numeric string would behave differently in the routes (`precio || 0` concatenates) and in the class (`Number(precio)` converts). That case is left out.
- `null`, booleans, strings, objects and non-finite numbers as venta body numbers are not modelled.
- A stored `null` price is not modelled. `null < menorVenta` holds in JavaScript, so `/menor-por-tipo` would pick such a sale; the model reads every missing price as skipped.
- A query parameter given more than once (an array in Express) is not modelled.
- `parseInt` on query strings is not modelled. `/suma` and `/mes-mayor` take the parsed integer, `None` for NaN.
- VentasRoutes.MesMayorEsMaximo: `mesMayor` is the object key, a string in the JSON response; the model keeps it as the number it came from.
- `Infinity` in the JSON response of `/menor-por-tipo` is kept as `None`; its serialisation as `null` is not modelled.
- The class's methods take arguments of the types they expect.
  - `mesDeMayorVentaEnAnio` takes a number and `menorVentaPorInmueble` a string. A year or type of another JavaScript type would only match stored values of that type.
  - A `tipo` such as `"toString"` finds a truthy prototype member in `acumulador` and writes to it. This does not change either average and is not modelled.
- The tariff tables are the only ones the code has. Any other pricing policy is not part of this model.
