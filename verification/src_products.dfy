/** The product creation view of the Supabase generation
    (src/components/Products.tsx): its own, case-sensitive price conversion,
    the displayed sale price with its fallback to the legacy `sale_price`, and
    the creation form that is reset once the product is created. */
module SrcProducts {
  import opened Seqs
  import opened Text
  import Price

  /** The view's local `priceToCUP`: a falsy amount (absent, `NaN` or 0) gives
      0; only the exact code "USD" is multiplied by the rate. */
  function LocalPriceToCup(amount: Price.NumericInput, currency: string, rate: real): (r: real)
    ensures !amount.Finite? || amount.value == 0.0 ==> r == 0.0
    ensures amount.Finite? && currency == "USD" ==> r == amount.value * rate
    ensures amount.Finite? && currency != "USD" ==> r == amount.value
  {
    if !amount.Finite? || amount.value == 0.0 then 0.0
    else if currency == "USD" then amount.value * rate
    else amount.value
  }

  /** The price fields of a listed product row as the view reads them. */
  datatype ListedProduct = ListedProduct(
    saleAmount: Price.NumericInput,
    saleCurrency: Option<string>,
    salePrice: Price.NumericInput)

  /** `p.sale_price_currency || "CUP"`. */
  function SaleCurrency(p: ListedProduct): (c: string)
    ensures c != ""
    ensures p.saleCurrency.Some? && p.saleCurrency.value != "" ==> c == p.saleCurrency.value
    ensures p.saleCurrency.None? || p.saleCurrency.value == "" ==> c == "CUP"
  {
    if p.saleCurrency.Some? && p.saleCurrency.value != "" then p.saleCurrency.value else "CUP"
  }

  /** The displayed price in CUP: the converted `sale_price_amount` when it is
      non-zero, otherwise the legacy `sale_price`, or 0 when that is falsy too. */
  function SalePriceCup(p: ListedProduct, rate: real): (r: real)
    ensures p.saleAmount.Finite? && p.saleAmount.value != 0.0 ==>
      r == LocalPriceToCup(p.saleAmount, SaleCurrency(p), rate)
    ensures !(p.saleAmount.Finite? && p.saleAmount.value != 0.0) ==> r == Price.ToNumber(p.salePrice)
  {
    if p.saleAmount.Finite? && p.saleAmount.value != 0.0 then LocalPriceToCup(p.saleAmount, SaleCurrency(p), rate)
    else if p.salePrice.Finite? then p.salePrice.value
    else 0.0
  }

  /** A product without a currency shows its amount unconverted, as CUP. */
  lemma MissingCurrencyIsCup(amount: real, salePrice: Price.NumericInput, rate: real)
    requires amount != 0.0
    ensures SalePriceCup(ListedProduct(Price.Finite(amount), None, salePrice), rate) == amount
  {
  }

  /** The view's conversion agrees with the shared resolver on every amount and
      rate exactly when the currency is "USD" or does not upper-case to "USD":
      a lower-case "usd" is converted by one and not by the other. */
  lemma ResolversAgreeIff(c: string)
    ensures (forall a: real, x: real ::
               LocalPriceToCup(Price.Finite(a), c, x) == Price.PriceToCup(Price.Finite(a), Some(c), Price.Finite(x)))
            <==> (c == "USD" || Upper(c) != "USD")
  {
    Price.KnownCodes();
    if c == "USD" || Upper(c) != "USD" {
      forall a: real, x: real
        ensures LocalPriceToCup(Price.Finite(a), c, x) == Price.PriceToCup(Price.Finite(a), Some(c), Price.Finite(x))
      {
        if a == 0.0 {
          assert a * x == 0.0;
        }
      }
    } else {
      assert LocalPriceToCup(Price.Finite(1.0), c, 2.0) == 1.0;
      assert Price.PriceToCup(Price.Finite(1.0), Some(c), Price.Finite(2.0)) == 2.0;
    }
  }

  /** The lower-case code is where the two conversions part. */
  lemma LowerCaseUsdDiffers()
    ensures LocalPriceToCup(Price.Finite(1.0), "usd", 2.0) == 1.0
    ensures Price.PriceToCup(Price.Finite(1.0), Some("usd"), Price.Finite(2.0)) == 2.0
  {
    Price.KnownCodes();
  }

  /** A form field: the number it starts with, or the text an input put there
      (inputs hand over their value as text, numeric ones included). */
  datatype FormValue = Num(n: real) | Str(s: string)

  /** The creation form's starting values. */
  function InitialForm(): (f: map<string, FormValue>)
    ensures f.Keys == {"name", "description", "sale_price_amount", "sale_price_currency", "cost_price_amount",
                       "cost_price_currency", "stock", "stock_minimum", "category", "unit_of_measure"}
    ensures f["sale_price_amount"] == Num(0.0) && f["sale_price_currency"] == Str("CUP")
    ensures f["cost_price_amount"] == Num(0.0) && f["cost_price_currency"] == Str("CUP")
    ensures f["stock"] == Num(0.0) && f["stock_minimum"] == Num(0.0)
    ensures f["name"] == Str("") && f["description"] == Str("") && f["category"] == Str("")
    ensures f["unit_of_measure"] == Str("unid")
  {
    map[
      "name" := Str(""),
      "description" := Str(""),
      "sale_price_amount" := Num(0.0),
      "sale_price_currency" := Str("CUP"),
      "cost_price_amount" := Num(0.0),
      "cost_price_currency" := Str("CUP"),
      "stock" := Num(0.0),
      "stock_minimum" := Num(0.0),
      "category" := Str(""),
      "unit_of_measure" := Str("unid")]
  }

  /** The view's form state. */
  class CreateProductView {
    var form: map<string, FormValue>

    constructor ()
      ensures form == InitialForm()
    {
      form := InitialForm();
    }

    /** `handleChange`: the named field takes the input's text; the others
        keep theirs. */
    method HandleChange(name: string, value: string)
      modifies this
      ensures form == old(form)[name := Str(value)]
    {
      form := form[name := Str(value)];
    }

    /** `handleSubmit`: the form is handed to `onCreate`, and put back to its
        starting values only when that call resolves; when it rejects, the
        entries stay for another try. */
    method HandleSubmit(created: bool) returns (sent: map<string, FormValue>)
      modifies this
      ensures sent == old(form)
      ensures created ==> form == InitialForm()
      ensures !created ==> form == old(form)
    {
      sent := form;
      if created {
        form := InitialForm();
      }
    }
  }
}
