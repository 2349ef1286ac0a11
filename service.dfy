/**
 The exchange-rate client. The HTTP request itself is an oracle supplied by the
 caller (an `Upstream` function); this module models only what the client makes
 of the outcome: the `conversion_result` field on success and 0 on any error.
 */
module ConverterService {
  import opened Js

  /** The outcome of `GET {base}/pair/{from}/{to}/{amount}`: a transport, status or
      decoding failure, or a decoded body whose `conversion_result` field is given
      (`Undefined` when the field is missing). */
  datatype Response = Failed | Body(conversionResult: Value)

  /** The upstream API, queried with the pair and the amount. */
  type Upstream = (string, string, Number) -> Response

  /** `map(response => response['conversion_result'])` followed by `catchError(() => of(0))`. */
  function Reply(response: Response): (v: Value)
    ensures response.Failed? ==> v == Num(Zero)
    ensures response.Body? ==> v == response.conversionResult
  {
    match response
    case Failed => Num(Zero)
    case Body(result) => result
  }

  /** Reply for one request against the upstream oracle. */
  function ConvertFromTo(upstream: Upstream, fromCurrency: string, toCurrency: string, amount: Number): (v: Value)
    ensures upstream(fromCurrency, toCurrency, amount).Failed? ==> v == Num(Zero)
    ensures upstream(fromCurrency, toCurrency, amount).Body? ==> v == upstream(fromCurrency, toCurrency, amount).conversionResult
  {
    Reply(upstream(fromCurrency, toCurrency, amount))
  }

  /** The failure sentinel is falsy, so no subscriber of the component commits it. */
  lemma FailureIsFalsy()
    ensures !ValueTruthy(Reply(Failed))
  {
  }
}
