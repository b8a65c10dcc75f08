# ARS → USD converter: rate resolution and conversion

This project models the decision logic of a peso-to-dollar converter. That
logic exists twice:

- in the browser (`public/app.js`): `pickRate`, `computeUsd`, and the choices
  `syncQuote` and `convert` make between reading the form and writing it;
- in the server endpoint `/api/convert` (`api/index.py`).

A quote has two legs, `compra` (bid) and `venta` (ask). The user's side
(`lado`) is `compra`, `venta`, `promedio` (the mean) or, in the browser, any
other string. Amounts and rates are Dafny `real`s. On the browser side a value
read through `Number(...)` is a `JsNum`: `NaN`, or a finite value. `||` and
`!` follow JavaScript's truthiness: a number is truthy when it is neither NaN
nor zero, so a negative number is truthy. On the server side, Python's
`x or y` on floats is modelled the same way, without a NaN case.

Modules:

- `Quote` (`quote.dfy`): the raw quote payload, whose fields can be absent,
  null, a number, or a non-numeric value. It also holds the side and the
  outcome of one fetch.
- `Api` (`api.dfy`): coercion of the two legs with `float(x or 0)`, the
  `if/elif/else` that picks `rate_value`, the zero-rate guard, the division,
  and the four kinds of response:
  - 422 when FastAPI's query validation fails;
  - 500 when the fetch or a coercion raises;
  - `ok: false`;
  - `ok: true`.
- `App` (`app.js` logic, in `app.dfy`):
  - `PickRate` and `ComputeUsd`;
  - `DecideConvert` (amount validation, then manual-rate precedence, then "ask
    the API"), `DecideSync` (the "Cotización inválida" guard), and how the
    browser reads the endpoint's reply;
  - the class `Form`, whose methods `SyncQuote` and `Convert` read and
    overwrite the page's fields step by step, as the source does.

  Fetches are parameters. `SyncQuote` receives what `fetchRate(casa)`
  settled with. `Convert` receives what the endpoint's own upstream fetch
  settled with, and computes the endpoint's reply with `Api.Convert`.
- `Consistency` (`consistency.dfy`): lemmas relating the two implementations.
  - For `venta` and `promedio` they agree.
  - For `compra` they agree exactly when `compra` is truthy or `venta` is
    falsy. The endpoint has no fallback from `compra` to `venta`.
  - Syncing a rate and then converting with it manually gives the same
    dollars as converting through the endpoint.

The `Form` constructor builds a page whose output fields are empty. The
page's initial HTML is not part of this model.

## Model

| member | source | states |
|---|---|---|
| `Api.PyFloat` | api/index.py:95-96 | A missing, null or zero field becomes 0.0. A non-zero number is kept. A non-numeric value makes `float()` raise (None). |
| `Api.SelectRate` | api/index.py:98-103 | `compra` uses compra alone. `promedio` uses the mean when both legs are non-zero, else venta, then compra. `venta` uses venta, then compra. The rate is zero exactly when, per side: compra is zero (`compra`); both legs are zero (`venta`); both legs are zero or they cancel (`promedio`). |
| `Api.PyOr` | api/index.py:101-103 | Python's `a or b` on floats returns `a` when it is non-zero and `b` otherwise. The result is non-zero iff either operand is. |
| `Api.ServerRate` | api/index.py:95-103 | The endpoint's `rate_value` for a fetched quote. It is undefined exactly when a leg is non-numeric. |
| `Api.Convert` | api/index.py:80-120 | 422 exactly when `ars <= 0` or `lado` is not one of the three literals. 500 exactly when the fetch or coercion fails. `ok: false` with the fixed error text exactly when `rate_value` is 0. On success, `rate` is `rate_value` (non-zero), `usd * rate == ars`, and `ars` and `lado` are echoed. |
| `App.Or` | public/app.js:29 | JavaScript's or-operator returns its left operand when that is truthy, and its right operand otherwise (so NaN or 0 gives 0). The result is truthy iff either operand is. |
| `App.ToNumber` | public/app.js:26-27 | `Number(x ?? 0)` is NaN exactly for a non-numeric field. It is truthy exactly for a non-zero number, which it keeps. |
| `App.PickRate` | public/app.js:25-35 | Always a number. `compra`: compra, else venta, else 0. `promedio`: the exact mean when both legs are truthy, else venta, then compra. Any other side: venta, else compra. Two falsy legs give 0 on every side. The rate is falsy exactly when both legs are falsy, or under `promedio` when both are truthy and cancel. |
| `App.ComputeUsd` | public/app.js:61-63 | The dollars times the rate give back the pesos, with no rounding. The result is positive for a positive amount and rate. |
| `App.DecideConvert` | public/app.js:65-85 | The amount is rejected exactly when it is NaN or not positive. The manual rate is used exactly when the amount is valid and the manual rate is positive, giving `ars / manualRate`. Otherwise (manual rate NaN, zero or negative) the decision defers to the API. |
| `App.DecideSync` | public/app.js:42-53 | A failed fetch is reported as such. A fetched quote fails with "Cotización inválida" exactly when `pickRate` is falsy. A synced rate is `pickRate`'s rate and non-zero. |
| `App.ReadConvertReply` | public/app.js:89-105 | A success body shows `usd` and `rate`. `ok: false` surfaces the server's error text. A 422 surfaces "API error (422)". A plain-text 500 body makes `res.json()` throw. |
| `App.ConvertFlow` | public/app.js:65-105 | Rejects exactly the invalid amounts. Takes the manual path exactly when the manual rate is positive, with `usd * rate == ars`. Otherwise it reports the endpoint's reply, one outcome per reply. It is a live success exactly when the fetched quote yields a non-zero `rate_value`; the success carries that rate and `usd * rate == ars`. It shows the server's error text exactly when `rate_value` is 0. It fails on an unreadable body exactly when the upstream fetch or a coercion fails. It fails with "API error (422)" exactly when the side is unknown. |
| `App.AverageConversionBetween` | public/app.js:29-34 | For a two-sided positive quote, the `promedio` rate lies between the `compra` and `venta` rates. The dollars converted at it lie between those converted at either leg. |
| `App.Form.SyncQuote` | public/app.js:37-59 | Returns `DecideSync`'s outcome. On success it writes the rate into `manualRate` and `rateValue` and sets status OK. On failure it leaves `manualRate` and `rateValue` as they were, sets status ERROR and shows the reason. It does not touch the amount, the side or the dollar field. |
| `App.Form.Convert` | public/app.js:65-106 | Returns `ConvertFlow`'s outcome for the form's fields. It never changes `manualRate`. An invalid amount only sets the message. A manual conversion writes `usd` and `rateValue` and leaves the API status. A live success writes both and sets status OK. A live failure sets status ERROR and leaves the outputs. |
| `Consistency.SelectorsAgree` | api/index.py:100-103 | For numeric quotes and side `venta` or `promedio`, the endpoint's `rate_value` equals `pickRate`'s rate. |
| `Consistency.CompraAgreesIff` | api/index.py:98-99 | For `compra` the two selectors agree iff compra is truthy or venta is falsy. When compra is falsy and venta truthy, the server gets 0 and the page a truthy rate. |
| `Consistency.FalsyQuoteNeverConverts` | public/app.js:26-48 | Two falsy legs give rate 0 on every side. `syncQuote` then fails with "Cotización inválida", and the endpoint answers `ok: false` for every valid request. |
| `Consistency.SyncedManualMatchesLive` | public/app.js:43-90 | For `venta`/`promedio`, a positive synced rate used manually gives the same dollars and rate as the live endpoint on the same quote. |
| `Consistency.NegativeSyncedRateDefersToApi` | public/app.js:46-77 | A negative synced rate passes the `!rate` guard. `convert` then ignores it and defers to the API. |
| `Consistency.CompraDivergenceWitness` | api/index.py:98-111 | For every positive amount some numeric quote (venta only) is synced by the page for `compra` yet refused by the endpoint for `compra`. |
| `Consistency.LiveVentaConversion` | api/index.py:102-120 | With no manual rate, the quote {compra 1190, venta 1210} converts 10000 pesos live at venta to 10000/1210 dollars at rate 1210. |

## Left out

- Network and framework plumbing: `fetchRate`'s HTTP call, `_get_json`, FastAPI routing, CORS, and the `/api/rate` and `/api/health` passthroughs. Each fetch is an input (`Fetch`).
- A failure of the browser's request to `/api/convert` itself (the request rejecting before any reply). The model always delivers the endpoint's reply.
- Display: `fmtMoney`, `toLocaleString`, the exact message strings (one `Message` constructor stands for each text), the `usdMeta`/`rateMeta` lines, `clearAll`, the event wiring and the auto-sync on `casa`/`lado` change. These are presentation.
- Timestamps, and the `nombre`, `casa` and `fechaActualizacion` metadata that both sides pass through without deciding anything on them.
- IEEE-754 behaviour: rounding, Infinity (which would pass the amount check), and overflow. Numbers are exact reals. JavaScript's NaN is kept; Python's side has none.
- The number-to-text round trip of `manualRate.value = rate` and of `ars` in the query string. The value read back is taken to be the value written.
- Numeric strings in the payload (`"1210"`), which `Number()` and `float()` would parse. A field is absent, null, a number, or a value that neither side accepts as a number.
- The race between `syncQuote` and `convert` writing the same fields. Each method is modelled as running to completion.
- `App.ComputeUsd`: requires a non-zero rate. JavaScript would give Infinity or NaN for a zero rate, and every caller passes a positive rate.
- `Api.SelectRate`: requires a side other than `Other`. The handler cannot be reached with another `lado`: FastAPI answers 422 first, which `Api.Convert` models.
