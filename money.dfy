/** The order totals the cart page and the checkout page display. Amounts
    are in cents; the tax is 8.5% of the subtotal and is not rounded (the
    pages only round when they print it with `toFixed(2)`). */
module Money {

  /** 8.5%, the tax rate both pages apply. */
  const TAX_RATE: real := 0.085

  /** $9.99, the flat shipping charge. */
  const SHIPPING: int := 999

  datatype Totals = Totals(subtotal: int, shipping: int, tax: real, total: real)

  /** `{ subtotal, shipping, tax: subtotal * 0.085, total: subtotal + shipping + tax }`. */
  function MakeTotals(subtotal: int, shipping: int): (r: Totals)
    ensures r.subtotal == subtotal && r.shipping == shipping
    ensures r.tax == subtotal as real * TAX_RATE
    ensures r.total == subtotal as real * 1.085 + shipping as real
  {
    var tax := subtotal as real * TAX_RATE;
    Totals(subtotal, shipping, tax, subtotal as real + shipping as real + tax)
  }
}
