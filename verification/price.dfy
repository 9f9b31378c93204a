/** The shared price resolver of the Supabase generation (src/lib/price.ts):
    an amount in CUP or USD, converted to CUP with the USD rate. Inputs are the
    loosely typed values the database hands over; amounts are reals. */
module Price {
  import opened Seqs
  import opened Text

  /** A JavaScript value after `Number(x ?? 0)`: absent, a finite number, or
      `NaN`. Parsing numeric strings is not modelled; a numeric string is given
      as the number it denotes. */
  datatype NumericInput = Missing | Finite(value: real) | NotANumber

  /** `Number(x ?? 0) || 0`: absent values and `NaN` become 0. */
  function ToNumber(x: NumericInput): (r: real)
    ensures x.Finite? ==> r == x.value
    ensures !x.Finite? ==> r == 0.0
  {
    match x
    case Finite(v) => v
    case _ => 0.0
  }

  /** `String(currency ?? 'CUP').toUpperCase()`. */
  function CurrencyCode(currency: Option<string>): (c: string)
    ensures currency.None? ==> c == "CUP"
    ensures currency.Some? ==> c == Upper(currency.value)
  {
    Upper(if currency.Some? then currency.value else "CUP")
  }

  /** `priceToCUP`. */
  function PriceToCup(amount: NumericInput, currency: Option<string>, rate: NumericInput): (r: real)
    ensures CurrencyCode(currency) == "USD" ==> r == ToNumber(amount) * ToNumber(rate)
    ensures CurrencyCode(currency) != "USD" ==> r == ToNumber(amount)
  {
    var a := ToNumber(amount);
    var c := CurrencyCode(currency);
    if c == "CUP" then a
    else if c == "USD" then a * ToNumber(rate)
    else a
  }

  /** The three currency codes the resolver tells apart, upper-cased. */
  lemma KnownCodes()
    ensures Upper("CUP") == "CUP" && Upper("USD") == "USD" && Upper("usd") == "USD"
    ensures "CUP" != "USD"
  {
    assert Upper("CUP")[0] == 'C' && Upper("CUP")[1] == 'U' && Upper("CUP")[2] == 'P';
    assert Upper("USD")[0] == 'U' && Upper("USD")[1] == 'S' && Upper("USD")[2] == 'D';
    assert Upper("usd")[0] == 'U' && Upper("usd")[1] == 'S' && Upper("usd")[2] == 'D';
    assert "CUP"[0] != "USD"[0];
  }

  /** A CUP amount is returned as it is, and so is an amount without currency. */
  lemma CupUnchanged(amount: NumericInput, rate: NumericInput)
    ensures PriceToCup(amount, Some("CUP"), rate) == ToNumber(amount)
    ensures PriceToCup(amount, None, rate) == ToNumber(amount)
  {
    KnownCodes();
  }

  /** A USD amount is multiplied by the rate; a missing or non-numeric rate
      gives 0. */
  lemma UsdMultiplies(amount: NumericInput, rate: NumericInput)
    ensures PriceToCup(amount, Some("USD"), rate) == ToNumber(amount) * ToNumber(rate)
    ensures !rate.Finite? ==> PriceToCup(amount, Some("USD"), rate) == 0.0
  {
    KnownCodes();
  }

  /** The currency is matched ignoring case. */
  lemma CaseInsensitive(amount: NumericInput, currency: string, rate: NumericInput)
    ensures PriceToCup(amount, Some(currency), rate) == PriceToCup(amount, Some(Upper(currency)), rate)
  {
    UpperIdempotent(currency);
  }

  /** Non-negative amounts and rates give a non-negative price. */
  lemma NonNegative(amount: NumericInput, currency: Option<string>, rate: NumericInput)
    requires ToNumber(amount) >= 0.0 && ToNumber(rate) >= 0.0
    ensures PriceToCup(amount, currency, rate) >= 0.0
  {
    var a, x := ToNumber(amount), ToNumber(rate);
    assert a * x >= 0.0;
  }
}
