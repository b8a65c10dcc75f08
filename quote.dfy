/**
 * Shared vocabulary of the converter: the raw quote payload that the rate
 * service returns, the side (`lado`) a user picks, and the outcome of a fetch.
 */
module Quote {

  datatype Option<T> = None | Some(value: T)

  /** One field of the JSON quote as it arrives from the rate service. */
  datatype RawField =
    | Absent        // the key is not in the payload
    | Null          // the key is present with value null
    | Num(v: real)  // a JSON number
    | Junk          // a value that is not a number and does not parse as one

  /** The two legs of a quote: `compra` (bid) and `venta` (ask). */
  datatype RawQuote = RawQuote(compra: RawField, venta: RawField)

  /** The `lado` selector; `Other` is any string besides the three named ones. */
  datatype Side = Compra | Venta | Promedio | Other

  /** Result of one outbound request: the parsed body, or a transport failure. */
  datatype Fetch<T> = Fetched(value: T) | FetchError
}
