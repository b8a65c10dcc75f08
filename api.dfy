/**
 * The server endpoint `/api/convert`: FastAPI query validation, the coercion
 * of the quote fields, the choice of `rate_value`, the zero-rate guard and the
 * division.
 */
module Api {
  import opened Quote

  /** `float(quote.get(name) or 0)`; None where Python's `float()` raises. */
  function PyFloat(f: RawField): (r: Option<real>)
    ensures r.None? <==> f.Junk?
    ensures r.Some? ==> (r.value != 0.0 <==> f.Num? && f.v != 0.0)
    ensures r.Some? && r.value != 0.0 ==> f == Num(r.value)
  {
    match f
    case Absent => Some(0.0)
    case Null => Some(0.0)
    case Num(v) => Some(v)  // a zero is falsy and becomes `0`, which is again 0.0
    case Junk => None
  }

  /** Python's `a or b` on floats. */
  function PyOr(a: real, b: real): (r: real)
    ensures a != 0.0 ==> r == a
    ensures a == 0.0 ==> r == b
    ensures r != 0.0 <==> a != 0.0 || b != 0.0
  {
    if a != 0.0 then a else b
  }

  /** The `if/elif/else` that computes `rate_value`. */
  function SelectRate(compra: real, venta: real, lado: Side): (rate: real)
    requires lado != Other
    ensures lado == Compra ==> rate == compra
    ensures lado == Promedio && compra != 0.0 && venta != 0.0 ==> rate == (compra + venta) / 2.0
    ensures lado == Promedio && (compra == 0.0 || venta == 0.0) && venta != 0.0 ==> rate == venta
    ensures lado == Promedio && venta == 0.0 ==> rate == compra
    ensures lado == Venta && venta != 0.0 ==> rate == venta
    ensures lado == Venta && venta == 0.0 ==> rate == compra
    ensures rate == 0.0 <==>
              match lado
              case Compra => compra == 0.0
              case Venta => compra == 0.0 && venta == 0.0
              case Promedio => (compra == 0.0 && venta == 0.0) || (compra != 0.0 && venta != 0.0 && compra + venta == 0.0)
              case Other => false
  {
    if lado == Compra then compra
    else if lado == Promedio then
      (if compra != 0.0 && venta != 0.0 then (compra + venta) / 2.0 else PyOr(venta, compra))
    else PyOr(venta, compra)
  }

  /** The rate the endpoint would use for a fetched quote; None where coercion raises. */
  function ServerRate(q: RawQuote, lado: Side): (r: Option<real>)
    requires lado != Other
    ensures r.None? <==> q.compra.Junk? || q.venta.Junk?
    ensures r.Some? ==> r.value == SelectRate(PyFloat(q.compra).value, PyFloat(q.venta).value, lado)
  {
    var c := PyFloat(q.compra);
    var v := PyFloat(q.venta);
    if c.None? || v.None? then None else Some(SelectRate(c.value, v.value, lado))
  }

  const InvalidQuoteError := "No se pudo obtener una cotización válida."

  /** What the endpoint sends back. */
  datatype Response =
    | Unprocessable                     // HTTP 422: query validation failed, the handler never ran
    | ServerError                       // HTTP 500: the upstream fetch or a coercion raised
    | Refused(error: string)            // {"ok": false, "error": ...}
    | Converted(ars: real, usd: real, rate: real, lado: Side)  // {"ok": true, ...}

  /**
   * `GET /api/convert?ars=..&lado=..`; `upstream` is what the single fetch of
   * the quote for `casa` produced.
   */
  function Convert(ars: real, lado: Side, upstream: Fetch<RawQuote>): (resp: Response)
    ensures resp.Unprocessable? <==> ars <= 0.0 || lado == Other
    ensures resp.ServerError? <==>
              ars > 0.0 && lado != Other && (upstream.FetchError? || ServerRate(upstream.value, lado).None?)
    ensures resp.Refused? <==>
              ars > 0.0 && lado != Other && upstream.Fetched? && ServerRate(upstream.value, lado) == Some(0.0)
    ensures resp.Refused? ==> resp.error == InvalidQuoteError
    ensures resp.Converted? ==>
              upstream.Fetched? && ServerRate(upstream.value, lado) == Some(resp.rate) &&
              resp.rate != 0.0 && resp.usd * resp.rate == ars && resp.ars == ars && resp.lado == lado
  {
    if ars <= 0.0 || lado == Other then Unprocessable
    else if upstream.FetchError? then ServerError
    else
      match ServerRate(upstream.value, lado)
      case None => ServerError
      case Some(rateValue) =>
        if rateValue == 0.0 then Refused(InvalidQuoteError)
        else Converted(ars, ars / rateValue, rateValue, lado)
  }
}
