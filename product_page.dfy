/** The add-to-cart form of the product page (scripts/product.js): the amount read from
    the field is merged into the stored cart. */
module ProductPage {
  import opened Seqs
  import opened Numbers
  import opened Catalog
  import opened AmountInput
  import opened Cart

  /** The submit handler: `parseInt` of the field, then the increment of the product's
      line or a new line. A field holding no number is not modelled (see README). */
  method Submit(cart: Cart, product: Product, field: AmountField) returns (amount: int)
    requires field.Amount().Some?
    modifies cart
    ensures amount == field.Amount().value
    ensures cart.lines == AddLine(old(cart.lines), product, amount)
    ensures NamesUnique(old(cart.lines)) ==> NamesUnique(cart.lines)
    ensures Valid(old(cart.lines)) && amount >= 1 ==> Valid(cart.lines)
  {
    amount := field.Amount().value;
    cart.Add(product, amount);
  }

  /** What the page offers is what the form adds: after a submit of an amount the field
      can show (at least 1), the product has a line holding at least that amount. */
  lemma SubmitAddsProduct(lines: seq<CartLine>, product: Product, input: string)
    requires Valid(lines)
    ensures var amount := ClampAmount(ParseInt(input));
            var r := AddLine(lines, product, amount);
            Valid(r) && FirstIndex(r, product.name).Some? && r[FirstIndex(r, product.name).value].amount >= amount
  {
    var amount := ClampAmount(ParseInt(input));
    AddKeepsValid(lines, product, amount);
    AddedProductIsInCart(lines, product, amount);
  }
}
