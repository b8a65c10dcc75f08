/**
 * The browser side: `pickRate`, `computeUsd`, and the decisions that
 * `syncQuote` and `convert` take between their reads and writes of the form.
 * Values read from the page go through JavaScript's `Number(...)`, which is
 * modelled by `JsNum`; `||` and `!` follow JavaScript's truthiness.
 */
module App {
  import opened Quote
  import Api

  /** A JavaScript number: NaN, or a finite value. */
  datatype JsNum = NaN | Val(r: real)

  /** JavaScript truthiness of a number: neither NaN nor zero. */
  predicate Truthy(x: JsNum)
  {
    x.Val? && x.r != 0.0
  }

  /** JavaScript's `a || b` on numbers. */
  function Or(a: JsNum, b: JsNum): (r: JsNum)
    ensures Truthy(a) ==> r == a
    ensures !Truthy(a) ==> r == b
    ensures Truthy(r) <==> Truthy(a) || Truthy(b)
  {
    if Truthy(a) then a else b
  }

  /** `Number(field ?? 0)`. */
  function ToNumber(f: RawField): (n: JsNum)
    ensures n.NaN? <==> f.Junk?
    ensures Truthy(n) <==> f.Num? && f.v != 0.0
    ensures Truthy(n) ==> n.r == f.v
    ensures f.Num? ==> n == Val(f.v)
  {
    match f
    case Absent => Val(0.0)
    case Null => Val(0.0)
    case Num(v) => Val(v)
    case Junk => NaN
  }

  /** `pickRate(quote, lado)`: one rate out of the quote's two legs. */
  function PickRate(q: RawQuote, lado: Side): (rate: JsNum)
    ensures rate.Val?
    // compra: own leg first, then venta, else 0
    ensures var c, v := ToNumber(q.compra), ToNumber(q.venta);
      lado == Compra ==>
        (Truthy(c) ==> rate == c) && (!Truthy(c) && Truthy(v) ==> rate == v)
    // promedio: the mean of two truthy legs, else venta before compra
    ensures var c, v := ToNumber(q.compra), ToNumber(q.venta);
      lado == Promedio ==>
        (Truthy(c) && Truthy(v) ==> rate == Val((c.r + v.r) / 2.0)) &&
        (!Truthy(c) && Truthy(v) ==> rate == v) &&
        (Truthy(c) && !Truthy(v) ==> rate == c)
    // venta and every other string: venta first, then compra
    ensures var c, v := ToNumber(q.compra), ToNumber(q.venta);
      (lado == Venta || lado == Other) ==>
        (Truthy(v) ==> rate == v) && (!Truthy(v) && Truthy(c) ==> rate == c)
    // two falsy legs give 0 whatever the side
    ensures !Truthy(ToNumber(q.compra)) && !Truthy(ToNumber(q.venta)) ==> rate == Val(0.0)
    // a zero rate from a quote with a truthy leg needs two legs that cancel
    ensures var c, v := ToNumber(q.compra), ToNumber(q.venta);
      !Truthy(rate) <==>
        (!Truthy(c) && !Truthy(v)) ||
        (lado == Promedio && Truthy(c) && Truthy(v) && c.r + v.r == 0.0)
  {
    var compra := ToNumber(q.compra);
    var venta := ToNumber(q.venta);
    if lado == Compra then Or(Or(compra, venta), Val(0.0))
    else if lado == Promedio then
      (if Truthy(compra) && Truthy(venta) then Val((compra.r + venta.r) / 2.0)
       else Or(Or(venta, compra), Val(0.0)))
    else Or(Or(venta, compra), Val(0.0))
  }

  /** `computeUsd(ars, rate)`: pesos divided by the peso price of a dollar, unrounded. */
  function ComputeUsd(ars: real, rate: real): (usd: real)
    requires rate != 0.0
    ensures usd * rate == ars
    ensures ars > 0.0 && rate > 0.0 ==> usd > 0.0
  {
    ars / rate
  }

  /** What `convert` decides from the amount and the manual rate, before any request. */
  datatype Decision =
    | InvalidAmount             // "Poné un monto ARS válido (mayor a 0)."
    | UseManual(usd: real, rate: real)
    | NeedsApi                  // ask `/api/convert`

  /** `!ars || ars <= 0`: the amount is invalid. */
  predicate BadAmount(ars: JsNum)
  {
    !Truthy(ars) || ars.r <= 0.0
  }

  /** `manualRate && manualRate > 0`: the manual rate is used. */
  predicate UsableManual(manualRate: JsNum)
  {
    Truthy(manualRate) && manualRate.r > 0.0
  }

  function DecideConvert(ars: JsNum, manualRate: JsNum): (d: Decision)
    ensures d.InvalidAmount? <==> ars.NaN? || ars.r <= 0.0
    ensures d.UseManual? <==> ars.Val? && ars.r > 0.0 && manualRate.Val? && manualRate.r > 0.0
    ensures d.UseManual? ==> d.rate == manualRate.r && d.usd * d.rate == ars.r && d.usd > 0.0
    ensures d.NeedsApi? ==> ars.Val? && ars.r > 0.0 && (manualRate.NaN? || manualRate.r <= 0.0)
  {
    if BadAmount(ars) then InvalidAmount
    else if UsableManual(manualRate) then UseManual(ComputeUsd(ars.r, manualRate.r), manualRate.r)
    else NeedsApi
  }

  /** Why `syncQuote` throws. */
  datatype SyncError =
    | RateFetchFailed   // `fetchRate` threw
    | InvalidQuote      // "Cotización inválida"

  datatype SyncOutcome = Synced(rate: real) | SyncFailed(why: SyncError)

  /** The decision inside `syncQuote` once `fetchRate(casa)` has settled. */
  function DecideSync(fetched: Fetch<RawQuote>, lado: Side): (s: SyncOutcome)
    ensures fetched.FetchError? <==> s == SyncFailed(RateFetchFailed)
    ensures fetched.Fetched? ==> (s == SyncFailed(InvalidQuote) <==> !Truthy(PickRate(fetched.value, lado)))
    ensures s.Synced? ==> fetched.Fetched? && s.rate != 0.0 && PickRate(fetched.value, lado) == Val(s.rate)
  {
    match fetched
    case FetchError => SyncFailed(RateFetchFailed)
    case Fetched(quote) =>
      var rate := PickRate(quote, lado);
      if !Truthy(rate) then SyncFailed(InvalidQuote) else Synced(rate.r)
  }

  /** How the browser reads a reply of `/api/convert` that is not a success. */
  datatype ApiFailure =
    | ServerMessage(text: string)   // `data.error`
    | HttpStatus(code: int)         // "API error (<status>)": no `error` field in the body
    | UnreadableBody                // `res.json()` threw on a plain-text body

  datatype ConvertOutcome =
    | AmountRejected
    | ManualConverted(usd: real, rate: real)
    | LiveConverted(usd: real, rate: real)
    | LiveFailed(why: ApiFailure)

  /** The `try` block of `convert` after `fetch('/api/convert?...')`. */
  function ReadConvertReply(resp: Api.Response): (o: ConvertOutcome)
    ensures o.LiveConverted? <==> resp.Converted?
    ensures resp.Converted? ==> o.usd == resp.usd && o.rate == resp.rate
    ensures resp.Refused? ==> o == LiveFailed(ServerMessage(resp.error))
    ensures resp.Unprocessable? ==> o == LiveFailed(HttpStatus(422))
    ensures resp.ServerError? ==> o == LiveFailed(UnreadableBody)
  {
    match resp
    case Unprocessable => LiveFailed(HttpStatus(422))   // FastAPI's JSON body carries `detail`, not `error`
    case ServerError => LiveFailed(UnreadableBody)      // "Internal Server Error" is not JSON
    case Refused(error) => LiveFailed(ServerMessage(error))
    case Converted(_, usd, rate, _) => LiveConverted(usd, rate)
  }

  /**
   * All of `convert`: validation, manual precedence, and otherwise the endpoint,
   * which fetches the quote (`upstream`) itself.
   */
  function ConvertFlow(ars: JsNum, manualRate: JsNum, lado: Side, upstream: Fetch<RawQuote>): (o: ConvertOutcome)
    ensures o == AmountRejected <==> ars.NaN? || ars.r <= 0.0
    ensures o.ManualConverted? <==> ars.Val? && ars.r > 0.0 && manualRate.Val? && manualRate.r > 0.0
    ensures o.ManualConverted? ==> o.rate == manualRate.r && o.usd * o.rate == ars.r
    ensures (o.LiveConverted? || o.LiveFailed?) ==> DecideConvert(ars, manualRate) == NeedsApi
    ensures o.LiveConverted? ==>
              o.rate != 0.0 && o.usd * o.rate == ars.r && upstream.Fetched? && lado != Other &&
              Api.ServerRate(upstream.value, lado) == Some(o.rate)
    // the live path, one outcome per kind of reply
    ensures o.LiveConverted? <==>
              DecideConvert(ars, manualRate) == NeedsApi && lado != Other && upstream.Fetched? &&
              Api.ServerRate(upstream.value, lado).Some? && Api.ServerRate(upstream.value, lado).value != 0.0
    ensures o == LiveFailed(ServerMessage(Api.InvalidQuoteError)) <==>
              DecideConvert(ars, manualRate) == NeedsApi && lado != Other && upstream.Fetched? &&
              Api.ServerRate(upstream.value, lado) == Some(0.0)
    ensures o == LiveFailed(UnreadableBody) <==>
              DecideConvert(ars, manualRate) == NeedsApi && lado != Other &&
              (upstream.FetchError? || Api.ServerRate(upstream.value, lado).None?)
    ensures o == LiveFailed(HttpStatus(422)) <==> DecideConvert(ars, manualRate) == NeedsApi && lado == Other
    ensures DecideConvert(ars, manualRate) == NeedsApi ==> o == ReadConvertReply(Api.Convert(ars.r, lado, upstream))
  {
    match DecideConvert(ars, manualRate)
    case InvalidAmount => AmountRejected
    case UseManual(usd, rate) => ManualConverted(usd, rate)
    case NeedsApi => ReadConvertReply(Api.Convert(ars.r, lado, upstream))
  }

  /**
   * Converting at the mean of a two-sided positive quote gives an amount
   * between the amounts converted at either leg.
   */
  lemma AverageConversionBetween(ars: real, q: RawQuote)
    requires ars > 0.0
    requires q.compra.Num? && q.compra.v > 0.0 && q.venta.Num? && q.venta.v > 0.0
    ensures var buy, sell, mid := PickRate(q, Compra).r, PickRate(q, Venta).r, PickRate(q, Promedio).r;
      (buy <= mid <= sell || sell <= mid <= buy) &&
      (ComputeUsd(ars, buy) <= ComputeUsd(ars, mid) <= ComputeUsd(ars, sell) ||
       ComputeUsd(ars, sell) <= ComputeUsd(ars, mid) <= ComputeUsd(ars, buy))
  {
    var c, v := q.compra.v, q.venta.v;
    var mid := (c + v) / 2.0;
    if c <= v {
      DivisionAntitone(ars, mid, v);
      DivisionAntitone(ars, c, mid);
    } else {
      DivisionAntitone(ars, mid, c);
      DivisionAntitone(ars, v, mid);
    }
  }

  /** More pesos per dollar buys fewer dollars. */
  lemma DivisionAntitone(ars: real, lo: real, hi: real)
    requires ars > 0.0 && 0.0 < lo <= hi
    ensures ars / hi <= ars / lo
  {
  }

  /** The status line next to "API". */
  datatype ApiStatus = NotTried | StatusOk | StatusError

  /** The footer message, one constructor per text the page writes. */
  datatype Message =
    | Blank
    | Searching                             // "Buscando cotización…"
    | QuoteUpdated                          // "Cotización actualizada. Ahora convertí."
    | QuoteFailed(why: SyncError)           // "No pude traer la cotización: ..."
    | AmountInvalid                         // "Poné un monto ARS válido (mayor a 0)."
    | ConvertedManually                     // "Convertido con cotización manual."
    | ConvertingViaApi                      // "Convirtiendo con API…"
    | ConvertedLive                         // "Listo. Convertido con cotización en vivo."
    | LiveConversionFailed(cause: ApiFailure) // "Falló la conversión por API: ..."

  /**
   * The fields of the page that `syncQuote` and `convert` read and write.
   * Inputs hold the value `Number(...)` reads from them; outputs hold the
   * number that is formatted into them.
   */
  class Form {
    var ars: JsNum            // #ars
    var lado: Side            // #lado
    var manualRate: JsNum     // #manualRate, also written by SyncQuote
    var usd: Option<real>     // #usd
    var rateValue: Option<real>  // #rateValue
    var apiStatus: ApiStatus  // #apiStatus
    var msg: Message          // #msg

    constructor (ars: JsNum, lado: Side, manualRate: JsNum)
      ensures this.ars == ars && this.lado == lado && this.manualRate == manualRate
      ensures usd == None && rateValue == None && apiStatus == NotTried && msg == Blank
    {
      this.ars, this.lado, this.manualRate := ars, lado, manualRate;
      usd, rateValue, apiStatus, msg := None, None, NotTried, Blank;
    }

    /** `syncQuote()`; `fetched` is what `fetchRate(casa)` settled with. */
    method SyncQuote(fetched: Fetch<RawQuote>) returns (s: SyncOutcome)
      modifies this
      ensures s == DecideSync(fetched, lado)
      ensures ars == old(ars) && lado == old(lado) && usd == old(usd)
      ensures s.Synced? ==>
                manualRate == Val(s.rate) && rateValue == Some(s.rate) &&
                apiStatus == StatusOk && msg == QuoteUpdated
      ensures s.SyncFailed? ==>
                manualRate == old(manualRate) && rateValue == old(rateValue) &&
                apiStatus == StatusError && msg == QuoteFailed(s.why)
    {
      msg := Searching;
      if fetched.FetchError? {
        apiStatus := StatusError;
        msg := QuoteFailed(RateFetchFailed);
        return SyncFailed(RateFetchFailed);
      }
      var rate := PickRate(fetched.value, lado);
      if !Truthy(rate) {
        apiStatus := StatusError;
        msg := QuoteFailed(InvalidQuote);
        return SyncFailed(InvalidQuote);
      }
      manualRate := rate;
      rateValue := Some(rate.r);
      apiStatus := StatusOk;
      msg := QuoteUpdated;
      s := Synced(rate.r);
    }

    /** `convert()`; `upstream` is what the endpoint's own fetch of the quote settles with. */
    method Convert(upstream: Fetch<RawQuote>) returns (o: ConvertOutcome)
      modifies this
      ensures o == ConvertFlow(ars, manualRate, lado, upstream)
      ensures ars == old(ars) && lado == old(lado) && manualRate == old(manualRate)
      ensures o == AmountRejected ==>
                usd == old(usd) && rateValue == old(rateValue) &&
                apiStatus == old(apiStatus) && msg == AmountInvalid
      ensures o.ManualConverted? ==>
                usd == Some(o.usd) && rateValue == Some(o.rate) &&
                apiStatus == old(apiStatus) && msg == ConvertedManually
      ensures o.LiveConverted? ==>
                usd == Some(o.usd) && rateValue == Some(o.rate) &&
                apiStatus == StatusOk && msg == ConvertedLive
      ensures o.LiveFailed? ==>
                usd == old(usd) && rateValue == old(rateValue) &&
                apiStatus == StatusError && msg == LiveConversionFailed(o.why)
    {
      var amount, manual := ars, manualRate;
      if BadAmount(amount) {
        msg := AmountInvalid;
        return AmountRejected;
      }
      if UsableManual(manual) {
        var converted := ComputeUsd(amount.r, manual.r);
        usd := Some(converted);
        rateValue := Some(manual.r);
        msg := ConvertedManually;
        return ManualConverted(converted, manual.r);
      }
      msg := ConvertingViaApi;
      o := ReadConvertReply(Api.Convert(amount.r, lado, upstream));
      if o.LiveConverted? {
        usd := Some(o.usd);
        rateValue := Some(o.rate);
        apiStatus := StatusOk;
        msg := ConvertedLive;
      } else {
        apiStatus := StatusError;
        msg := LiveConversionFailed(o.why);
      }
    }
  }
}
