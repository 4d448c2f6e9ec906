/**
 * The gateway class: the currency tables published by the billing provider and the
 * validation of the gateway's configuration form.
 */
module Gateway {
  import opened Common

  /** The full list of currencies the billing provider supports, in the order it is published. */
  function SupportedCurrencies(): (r: seq<string>)
    ensures |r| == 119
  {
    ["USD", "AED", "ANG", "AOA", "ARS", "AUD", "AWG", "AZN", "BAM", "BBD", "BDT", "BGN"] +
    ["BMD", "BND", "BOB", "BRL", "BSD", "BWP", "BYR", "BZD", "CAD", "CDF", "CHF", "CLF"] +
    ["CLP", "CNY", "COP", "CRC", "CVE", "CZK", "DKK", "DOP", "EGP", "ERN", "ETB", "EUR"] +
    ["FJD", "FKP", "GBP", "GHS", "GIP", "GMD", "GTQ", "GYD", "HKD", "HNL", "HRK", "HUF"] +
    ["IDR", "ILS", "INR", "ISK", "JMD", "JPY", "KES", "KGS", "KRW", "KYD", "LBP", "LKR"] +
    ["LRD", "MAD", "MDL", "MKD", "MMK", "MOP", "MRO", "MUR", "MVR", "MWK", "MXN", "MYR"] +
    ["MZN", "NAD", "NGN", "NIO", "NOK", "NPR", "NZD", "PAB", "PEN", "PGK", "PHP", "PKR"] +
    ["PLN", "QAR", "RON", "RSD", "RUB", "SAR", "SBD", "SEK", "SGD", "SHP", "SLL", "SOS"] +
    ["SRD", "STD", "SYP", "THB", "TJS", "TOP", "TRY", "TTD", "TWD", "TZS", "UAH", "UGX"] +
    ["UYU", "UZS", "VEF", "VND", "WST", "XAF", "XCD", "XOF", "ZAR", "ZMK", "ZWL"]
  }

  /** The currencies whose smallest billing unit is the display unit. */
  function ZeroDecimalCurrencies(): (r: seq<string>)
    ensures |r| == 6
    ensures (set c | c in r) == {"CLP", "JPY", "KRW", "VND", "XAF", "XOF"}
  {
    ["CLP", "JPY", "KRW", "VND", "XAF", "XOF"]
  }

  /** Every zero-decimal currency is one the provider supports. */
  lemma ZeroDecimalAreSupported()
    ensures forall c :: c in ZeroDecimalCurrencies() ==> c in SupportedCurrencies()
  {
    var s := SupportedCurrencies();
    assert s[24] == "CLP" && s[53] == "JPY" && s[56] == "KRW";
    assert s[111] == "VND" && s[113] == "XAF" && s[115] == "XOF";
  }

  /** The submitted configuration form, as the strings the form returns. */
  datatype GatewayForm = GatewayForm(enabled: string, apikey: string, sitename: string, customeridprefix: string)

  /** The message stored under `errors['enabled']`. */
  const CannotBeEnabled := LangString("gatewaycannotbeenabled", "payment")

  /** The gateway may not be enabled without both an API key and a site name. */
  predicate RejectsForm(data: GatewayForm) {
    !IsEmptyString(data.enabled) && (IsEmptyString(data.apikey) || IsEmptyString(data.sitename))
  }

  /**
   * Validation of the configuration form. The error array the PHP method receives by
   * reference is passed in as `errors` and its updated value returned.
   */
  function ValidateGatewayForm(data: GatewayForm, errors: map<string, LangString>): (updated: map<string, LangString>)
    ensures updated.Keys == if RejectsForm(data) then errors.Keys + {"enabled"} else errors.Keys
    ensures RejectsForm(data) ==> updated["enabled"] == CannotBeEnabled
    ensures forall k :: k in errors && k != "enabled" ==> updated[k] == errors[k]
    ensures !RejectsForm(data) ==> updated == errors
  {
    if !IsEmptyString(data.enabled) && (IsEmptyString(data.apikey) || IsEmptyString(data.sitename)) then
      errors["enabled" := CannotBeEnabled]
    else
      errors
  }

  /** An enabled gateway passes validation exactly when both credentials are non-empty. */
  lemma EnabledNeedsBothCredentials(data: GatewayForm)
    requires !IsEmptyString(data.enabled)
    ensures "enabled" in ValidateGatewayForm(data, map[]) <==> IsEmptyString(data.apikey) || IsEmptyString(data.sitename)
  {
  }

  /** The customer-id prefix is never required: it has no influence on the validation. */
  lemma PrefixIsNeverRequired(data: GatewayForm, prefix: string, errors: map<string, LangString>)
    ensures ValidateGatewayForm(data.(customeridprefix := prefix), errors) == ValidateGatewayForm(data, errors)
  {
  }
}
