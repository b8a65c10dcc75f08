/**
 * How the browser's local decisions relate to the server endpoint that
 * re-implements them.
 */
module Consistency {
  import opened Quote
  import opened App
  import Api

  /** A quote both sides can read: Python's `float()` does not raise on it. */
  predicate Numeric(q: RawQuote)
  {
    !q.compra.Junk? && !q.venta.Junk?
  }

  /** For venta and promedio the endpoint's `rate_value` is `pickRate`'s rate. */
  lemma SelectorsAgree(q: RawQuote, lado: Side)
    requires Numeric(q)
    requires lado == Venta || lado == Promedio
    ensures Api.ServerRate(q, lado) == Some(PickRate(q, lado).r)
  {
  }

  /**
   * For compra they agree exactly when compra is truthy or venta is falsy:
   * the endpoint has no fallback to venta.
   */
  lemma CompraAgreesIff(q: RawQuote)
    requires Numeric(q)
    ensures Api.ServerRate(q, Compra) == Some(PickRate(q, Compra).r) <==>
              Truthy(ToNumber(q.compra)) || !Truthy(ToNumber(q.venta))
    ensures !Truthy(ToNumber(q.compra)) && Truthy(ToNumber(q.venta)) ==>
              Api.ServerRate(q, Compra) == Some(0.0) && Truthy(PickRate(q, Compra))
  {
  }

  /**
   * With two falsy legs nothing converts: `pickRate` gives 0 on every side,
   * `syncQuote` fails with "Cotización inválida" and the endpoint refuses.
   */
  lemma FalsyQuoteNeverConverts(q: RawQuote, lado: Side, ars: real)
    requires !Truthy(ToNumber(q.compra)) && !Truthy(ToNumber(q.venta))
    ensures PickRate(q, lado) == Val(0.0)
    ensures DecideSync(Fetched(q), lado) == SyncFailed(InvalidQuote)
    ensures Numeric(q) && ars > 0.0 && lado != Other ==>
              Api.Convert(ars, lado, Fetched(q)) == Api.Refused(Api.InvalidQuoteError)
  {
  }

  /**
   * Syncing a positive rate and then converting with it as the manual rate
   * gives the dollars the endpoint computes from the same quote, for venta
   * and promedio; the manual path makes no request, so `upstream` is unused.
   */
  lemma SyncedManualMatchesLive(ars: real, q: RawQuote, lado: Side, upstream: Fetch<RawQuote>)
    requires ars > 0.0 && Numeric(q) && (lado == Venta || lado == Promedio)
    requires DecideSync(Fetched(q), lado).Synced? && DecideSync(Fetched(q), lado).rate > 0.0
    ensures var rate := DecideSync(Fetched(q), lado).rate;
      var manual := ConvertFlow(Val(ars), Val(rate), lado, upstream);
      var live := ConvertFlow(Val(ars), Val(0.0), lado, Fetched(q));
      manual.ManualConverted? && live.LiveConverted? &&
      manual.usd == live.usd && manual.rate == live.rate == rate
  {
    SelectorsAgree(q, lado);
  }

  /**
   * A negative leg is truthy, so `syncQuote` can write a negative manual
   * rate; `convert` then ignores it and asks the endpoint.
   */
  lemma NegativeSyncedRateDefersToApi(ars: real, q: RawQuote, lado: Side)
    requires ars > 0.0
    requires DecideSync(Fetched(q), lado).Synced? && DecideSync(Fetched(q), lado).rate < 0.0
    ensures DecideConvert(Val(ars), Val(DecideSync(Fetched(q), lado).rate)) == NeedsApi
  {
  }

  /**
   * Whatever the amount, some quote is synced by the page for compra and yet
   * refused by the endpoint for compra: one that carries only venta.
   */
  lemma CompraDivergenceWitness(ars: real)
    requires ars > 0.0
    ensures exists q :: Numeric(q) && DecideSync(Fetched(q), Compra).Synced? &&
              ConvertFlow(Val(ars), Val(0.0), Compra, Fetched(q)) == LiveFailed(ServerMessage(Api.InvalidQuoteError))
  {
    var q := RawQuote(Absent, Num(1210.0));
    assert DecideSync(Fetched(q), Compra) == Synced(1210.0);
    assert Api.ServerRate(q, Compra) == Some(0.0);
  }

  /** A two-sided quote converts live at venta: 10000 pesos at 1210 per dollar. */
  lemma LiveVentaConversion()
    ensures ConvertFlow(Val(10000.0), Val(0.0), Venta, Fetched(RawQuote(Num(1190.0), Num(1210.0)))) ==
              LiveConverted(10000.0 / 1210.0, 1210.0)
  {
  }
}
